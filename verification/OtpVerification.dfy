/** One-time codes for one address: issue, verify and consume, Redis command by Redis command. */
module OtpVerification {
  import opened Prelude

  const OTP_TTL_MS: int := 300_000
  const OTP_MAX_ATTEMPTS: nat := 5
  const OTP_RESEND_COOLDOWN_MS: int := 30_000

  /** The stored JSON: the code and its expiry. */
  datatype Raw = Raw(code: string, expiresAt: int)

  /** `serial` numbers the codes written; Redis drops the key at `dropsAt`. */
  datatype CodeKey = CodeKey(raw: Raw, dropsAt: int, serial: nat)

  datatype Counter = Counter(count: nat, dropsAt: Option<int>)

  /** The three keys of one address, and Redis' clock. */
  datatype Keys = Keys(code: Option<CodeKey>, attempts: Option<Counter>, cooldown: Option<int>, now: int)

  datatype Result = Ok | Expired | Consumed | Invalid | TooManyAttempts

  // ---------------------------------------------------------------- Redis commands

  predicate CodeLive(k: Keys) { k.code.Some? && k.now < k.code.value.dropsAt }

  predicate CounterLive(k: Keys) {
    k.attempts.Some? && (k.attempts.value.dropsAt.Some? ==> k.now < k.attempts.value.dropsAt.value)
  }

  function Attempts(k: Keys): nat { if CounterLive(k) then k.attempts.value.count else 0 }

  predicate CooldownLive(k: Keys) { k.cooldown.Some? && k.now < k.cooldown.value }

  /** SET cooldown NX EX. */
  function TakeCooldown(k: Keys): Keys {
    if CooldownLive(k) then k else k.(cooldown := Some(k.now + OTP_RESEND_COOLDOWN_MS))
  }

  /** MULTI; SET code EX; DEL attempts; EXEC. */
  function WriteCode(k: Keys, raw: Raw, serial: nat): Keys {
    k.(code := Some(CodeKey(raw, k.now + OTP_TTL_MS, serial)), attempts := None)
  }

  /** INCR attempts: a missing key starts at one, without a TTL. */
  function IncrAttempts(k: Keys): Keys {
    k.(attempts := Some(Counter(Attempts(k) + 1, if CounterLive(k) then k.attempts.value.dropsAt else None)))
  }

  function ExpireAttempts(k: Keys): Keys {
    if CounterLive(k) then k.(attempts := Some(k.attempts.value.(dropsAt := Some(k.now + OTP_TTL_MS)))) else k
  }

  function DelAttempts(k: Keys): Keys { k.(attempts := None) }

  function DelCode(k: Keys): Keys { k.(code := None) }

  function GetCode(k: Keys): Option<Raw> { if CodeLive(k) then Some(k.code.value.raw) else None }

  /** What the verification does with the code it read. */
  datatype Reading = Missing | TooLate | Mismatch | Match

  function Compare(raw: Option<Raw>, submitted: string, now: int): Reading {
    if raw.None? then Missing
    else if now > raw.value.expiresAt then TooLate
    else if raw.value.code != submitted then Mismatch
    else Match
  }

  /** The compare-and-delete script. */
  predicate Deletes(k: Keys, raw: Raw) { CodeLive(k) && k.code.value.raw == raw }

  function CompareAndDelete(k: Keys, raw: Raw): Keys { if Deletes(k, raw) then k.(code := None) else k }

  // ---------------------------------------------------------------- uninterrupted calls

  datatype Verified = Verified(keys: Keys, result: Result, compared: bool)

  function VerifyAtomic(k: Keys, submitted: string): Verified {
    var counted := IncrAttempts(k);
    var kept := if Attempts(counted) == 1 then ExpireAttempts(counted) else counted;
    if Attempts(counted) > OTP_MAX_ATTEMPTS then Verified(kept, TooManyAttempts, false)
    else
      var raw := GetCode(kept);
      match Compare(raw, submitted, k.now)
      case Missing => Verified(kept, Consumed, false)
      case TooLate => Verified(DelCode(kept), Expired, false)
      case Mismatch => Verified(kept, Invalid, true)
      case Match => Verified(DelAttempts(CompareAndDelete(kept, raw.value)), Ok, true)
  }

  class OtpStore {
    var code: Option<CodeKey>
    var attempts: Option<Counter>
    var cooldown: Option<int>
    var now: int
    var written: nat

    constructor ()
      ensures View() == Keys(None, None, None, 0) && written == 0
    {
      code, attempts, cooldown, now, written := None, None, None, 0, 0;
    }

    function View(): Keys
      reads this
    {
      Keys(code, attempts, cooldown, now)
    }

    method IssueOtp(value: string) returns (issued: bool)
      modifies this
      ensures issued == !CooldownLive(old(View()))
      ensures !issued ==> View() == old(View()) && written == old(written)
      ensures issued ==>
        && View() == WriteCode(TakeCooldown(old(View())), Raw(value, old(now) + OTP_TTL_MS), old(written))
        && written == old(written) + 1
      ensures issued <==> old(cooldown).None? || old(cooldown).value <= old(now)
      ensures issued ==>
        && code == Some(CodeKey(Raw(value, old(now) + 300_000), old(now) + 300_000, old(written)))
        && attempts == None && cooldown == Some(old(now) + 30_000) && now == old(now)
    {
      if cooldown.Some? && now < cooldown.value {
        return false;
      }
      cooldown := Some(now + OTP_RESEND_COOLDOWN_MS);
      var expiresAt := now + OTP_TTL_MS;
      code := Some(CodeKey(Raw(value, expiresAt), now + OTP_TTL_MS, written));
      attempts := None;
      written := written + 1;
      return true;
    }

    method Incr() returns (count: nat)
      modifies this`attempts
      ensures View() == IncrAttempts(old(View())) && count == Attempts(View())
    {
      if CounterLive(View()) {
        attempts := Some(attempts.value.(count := attempts.value.count + 1));
      } else {
        attempts := Some(Counter(1, None));
      }
      count := attempts.value.count;
    }

    method VerifyAndConsumeOtp(submitted: string) returns (result: Result)
      modifies this`code, this`attempts
      ensures View() == VerifyAtomic(old(View()), submitted).keys
      ensures result == VerifyAtomic(old(View()), submitted).result
      ensures
        var counter, key := old(attempts), old(code);
        var counting := counter.Some? && (counter.value.dropsAt.Some? ==> now < counter.value.dropsAt.value);
        var n := if counting then counter.value.count else 0;
        && (result == TooManyAttempts <==> n >= 5)
        && (n < 5 ==>
              if key.None? || key.value.dropsAt <= now then result == Consumed
              else if key.value.raw.expiresAt < now then result == Expired
              else if key.value.raw.code != submitted then result == Invalid
              else result == Ok)
        && code == (if result == Ok || result == Expired then None else key)
        && attempts ==
             if result == Ok then None
             else Some(Counter(n + 1, if n == 0 then Some(now + 300_000) else counter.value.dropsAt))
    {
      var count := Incr();
      if count == 1 {
        attempts := Some(attempts.value.(dropsAt := Some(now + OTP_TTL_MS)));
      }
      if count > OTP_MAX_ATTEMPTS {
        return TooManyAttempts;
      }
      var raw := GetCode(View());
      if raw.None? {
        return Consumed;
      }
      if now > raw.value.expiresAt {
        code := None;
        return Expired;
      }
      if raw.value.code != submitted {
        return Invalid;
      }
      if !Deletes(View(), raw.value) {
        return Consumed;
      }
      code := None;
      attempts := None;
      return Ok;
    }
  }

  /** Single use: a successful verification submitted the live code, and the code is gone afterwards. */
  lemma SuccessConsumesTheCode(k: Keys, submitted: string)
    ensures VerifyAtomic(k, submitted).result == Ok <==>
      && CodeLive(k) && k.code.value.raw.code == submitted
      && k.now <= k.code.value.raw.expiresAt && Attempts(k) < OTP_MAX_ATTEMPTS
    ensures VerifyAtomic(k, submitted).result == Ok ==>
      forall again :: VerifyAtomic(VerifyAtomic(k, submitted).keys, again).result == Consumed
  {
    var counted := IncrAttempts(k);
    assert Attempts(counted) == Attempts(k) + 1;
  }

  // ---------------------------------------------------------------- bounded attempts

  /** One address over time, each call uninterrupted. `compared` counts comparisons with the current code. */
  datatype Address = Address(keys: Keys, written: nat, compared: nat)

  datatype Call = Issue(code: string) | Verify(submitted: string) | Wait(ms: nat)

  function NextCall(a: Address, call: Call): Address {
    match call
    case Issue(code) =>
      if CooldownLive(a.keys) then a
      else
        Address(WriteCode(TakeCooldown(a.keys), Raw(code, a.keys.now + OTP_TTL_MS), a.written), a.written + 1, 0)
    case Verify(submitted) =>
      var v := VerifyAtomic(a.keys, submitted);
      a.(keys := v.keys, compared := a.compared + if v.compared then 1 else 0)
    case Wait(ms) => a.(keys := a.keys.(now := a.keys.now + ms))
  }

  function RunCalls(a: Address, calls: seq<Call>): Address
    decreases |calls|
  {
    if calls == [] then a else RunCalls(NextCall(a, calls[0]), calls[1..])
  }

  const NO_CODE := Address(Keys(None, None, None, 0), 0, 0)

  /** The attempt counter outlives the code it guards. */
  ghost predicate CounterOutlivesCode(a: Address) {
    && a.compared <= OTP_MAX_ATTEMPTS
    && (a.keys.attempts.Some? ==> a.keys.attempts.value.dropsAt.Some?)
    && (CodeLive(a.keys) ==>
          && a.keys.code.value.dropsAt <= a.keys.now + OTP_TTL_MS
          && a.compared <= Attempts(a.keys)
          && (CounterLive(a.keys) ==> a.keys.code.value.dropsAt <= a.keys.attempts.value.dropsAt.value))
  }

  lemma {:induction false} RunKeepsCounter(a: Address, calls: seq<Call>)
    requires CounterOutlivesCode(a)
    ensures CounterOutlivesCode(RunCalls(a, calls))
    decreases |calls|
  {
    if calls != [] {
      CallKeepsCounter(a, calls[0]);
      RunKeepsCounter(NextCall(a, calls[0]), calls[1..]);
    }
  }

  lemma CallKeepsCounter(a: Address, call: Call)
    requires CounterOutlivesCode(a)
    ensures CounterOutlivesCode(NextCall(a, call))
  {
    if call.Verify? {
      var counted := IncrAttempts(a.keys);
      assert Attempts(counted) == Attempts(a.keys) + 1;
      assert CounterLive(counted);
    }
  }

  /** With uninterrupted calls, no code is ever compared more than OTP_MAX_ATTEMPTS times. */
  lemma AtMostMaxAttemptsPerCode(calls: seq<Call>)
    ensures RunCalls(NO_CODE, calls).compared <= OTP_MAX_ATTEMPTS
  {
    RunKeepsCounter(NO_CODE, calls);
  }

  // ---------------------------------------------------------------- interleaved commands

  datatype Phase =
    | Counted(attempts: nat)     // after INCR
    | Checked                    // attempts were within the bound
    | Late                       // read an expired code: about to delete
    | Matched(raw: Raw)          // read a matching code: about to compare and delete
    | Won                        // deleted it: about to delete the counter
    | Done(result: Result)

  datatype Verification = Verification(submitted: string, phase: Phase)

  /** `issuing` holds the expiries of issuers past the cooldown; `codes` logs every code written, by serial. */
  datatype World = World(
    keys: Keys, issuing: multiset<int>, calls: seq<Verification>,
    codes: seq<string>, compared: nat, successes: seq<Success>)

  datatype Success = Success(serial: nat, submitted: string)

  datatype Step =
    | Acquire                              // an issuer takes the cooldown
    | Write(expiresAt: int, code: string)  // ... and writes its code
    | Arrive(submitted: string)            // a verification increments the counter
    | Guard(call: nat)                     // sets the counter's TTL if it is first, and checks the bound
    | Read(call: nat)                      // GET and compare
    | Drop(call: nat)                      // DEL of an expired code
    | Consume(call: nat)                   // the compare-and-delete script
    | Reset(call: nat)                     // DEL of the counter after a success
    | Pass(ms: nat)

  predicate Enabled(w: World, step: Step) {
    match step
    case Acquire => true
    case Write(expiresAt, _) => expiresAt in w.issuing
    case Arrive(_) => true
    case Guard(c) => c < |w.calls| && w.calls[c].phase.Counted?
    case Read(c) => c < |w.calls| && w.calls[c].phase.Checked?
    case Drop(c) => c < |w.calls| && w.calls[c].phase.Late?
    case Consume(c) => c < |w.calls| && w.calls[c].phase.Matched?
    case Reset(c) => c < |w.calls| && w.calls[c].phase.Won?
    case Pass(_) => true
  }

  function Goto(w: World, c: nat, phase: Phase): World
    requires c < |w.calls|
  {
    w.(calls := w.calls[c := w.calls[c].(phase := phase)])
  }

  function Next(w: World, step: Step): World
    requires Enabled(w, step)
  {
    match step
    case Acquire =>
      if CooldownLive(w.keys) then w
      else w.(keys := TakeCooldown(w.keys), issuing := w.issuing + multiset{w.keys.now + OTP_TTL_MS})
    case Write(expiresAt, code) =>
      w.(keys := WriteCode(w.keys, Raw(code, expiresAt), |w.codes|), issuing := w.issuing - multiset{expiresAt},
         codes := w.codes + [code], compared := 0)
    case Arrive(submitted) =>
      var keys := IncrAttempts(w.keys);
      w.(keys := keys, calls := w.calls + [Verification(submitted, Counted(Attempts(keys)))])
    case Guard(c) =>
      var n := w.calls[c].phase.attempts;
      var kept := if n == 1 then w.(keys := ExpireAttempts(w.keys)) else w;
      Goto(kept, c, if n > OTP_MAX_ATTEMPTS then Done(TooManyAttempts) else Checked)
    case Read(c) =>
      var raw := GetCode(w.keys);
      match Compare(raw, w.calls[c].submitted, w.keys.now) {
        case Missing => Goto(w, c, Done(Consumed))
        case TooLate => Goto(w, c, Late)
        case Mismatch => Goto(w, c, Done(Invalid)).(compared := w.compared + 1)
        case Match => Goto(w, c, Matched(raw.value)).(compared := w.compared + 1)
      }
    case Drop(c) => Goto(w, c, Done(Expired)).(keys := DelCode(w.keys))
    case Consume(c) =>
      var raw := w.calls[c].phase.raw;
      if Deletes(w.keys, raw) then
        Goto(w, c, Won).(
          keys := CompareAndDelete(w.keys, raw),
          successes := w.successes + [Success(w.keys.code.value.serial, w.calls[c].submitted)])
      else Goto(w, c, Done(Consumed))
    case Reset(c) => Goto(w, c, Done(Ok)).(keys := DelAttempts(w.keys))
    case Pass(ms) => w.(keys := w.keys.(now := w.keys.now + ms))
  }

  predicate ValidRun(w: World, steps: seq<Step>)
    decreases |steps|
  {
    steps == [] || (Enabled(w, steps[0]) && ValidRun(Next(w, steps[0]), steps[1..]))
  }

  function Run(w: World, steps: seq<Step>): World
    requires ValidRun(w, steps)
    decreases |steps|
  {
    if steps == [] then w else Run(Next(w, steps[0]), steps[1..])
  }

  const IDLE := World(Keys(None, None, None, 0), multiset{}, [], [], 0, [])

  /** The code key holds the latest code written, no success has used it, and each success used up one code. */
  ghost predicate Inv(w: World) {
    && (w.keys.code.Some? ==>
          && w.keys.code.value.serial + 1 == |w.codes|
          && w.codes[w.keys.code.value.serial] == w.keys.code.value.raw.code
          && forall i :: 0 <= i < |w.successes| ==> w.successes[i].serial < w.keys.code.value.serial)
    && (forall i :: 0 <= i < |w.successes| ==>
          && w.successes[i].serial < |w.codes| && w.codes[w.successes[i].serial] == w.successes[i].submitted)
    && (forall i, j :: 0 <= i < j < |w.successes| ==> w.successes[i].serial < w.successes[j].serial)
    && (forall c :: 0 <= c < |w.calls| && w.calls[c].phase.Matched? ==>
          w.calls[c].phase.raw.code == w.calls[c].submitted)
  }

  lemma ReadKeepsInv(w: World, c: nat)
    requires Enabled(w, Read(c)) && Inv(w)
    ensures Inv(Next(w, Read(c)))
  {
    var raw := GetCode(w.keys);
    if Compare(raw, w.calls[c].submitted, w.keys.now).Match? {
      assert raw.value.code == w.calls[c].submitted;
    }
  }

  lemma ConsumeKeepsInv(w: World, c: nat)
    requires Enabled(w, Consume(c)) && Inv(w)
    ensures Inv(Next(w, Consume(c)))
  {
  }

  lemma WriteKeepsInv(w: World, expiresAt: int, code: string)
    requires Enabled(w, Write(expiresAt, code)) && Inv(w)
    ensures Inv(Next(w, Write(expiresAt, code)))
  {
  }

  lemma StepKeepsInv(w: World, step: Step)
    requires Enabled(w, step) && Inv(w)
    ensures Inv(Next(w, step))
  {
    match step {
      case Read(c) => ReadKeepsInv(w, c);
      case Consume(c) => ConsumeKeepsInv(w, c);
      case Write(expiresAt, code) => WriteKeepsInv(w, expiresAt, code);
      case _ =>
    }
  }

  lemma {:induction false} RunKeepsInv(w: World, steps: seq<Step>)
    requires ValidRun(w, steps) && Inv(w)
    ensures Inv(Run(w, steps))
    decreases |steps|
  {
    if steps != [] {
      StepKeepsInv(w, steps[0]);
      RunKeepsInv(Next(w, steps[0]), steps[1..]);
    }
  }

  /**
   * In every interleaving of Redis commands each success used up a code of its own, equal to the one submitted;
   * so successes never exceed the codes written.
   */
  lemma EachSuccessUsesUpOneCode(steps: seq<Step>)
    requires ValidRun(IDLE, steps)
    ensures var w := Run(IDLE, steps);
      && |w.successes| <= |w.codes|
      && (forall i :: 0 <= i < |w.successes| ==>
            w.successes[i].serial < |w.codes| && w.codes[w.successes[i].serial] == w.successes[i].submitted)
      && (forall i, j :: 0 <= i < j < |w.successes| ==> w.successes[i].serial != w.successes[j].serial)
  {
    var w := Run(IDLE, steps);
    RunKeepsInv(IDLE, steps);
    if w.successes != [] {
      SerialsAtLeast(w.successes, |w.successes| - 1);
    }
  }

  lemma {:induction false} SerialsAtLeast(successes: seq<Success>, i: nat)
    requires i < |successes|
    requires forall i, j :: 0 <= i < j < |successes| ==> successes[i].serial < successes[j].serial
    ensures i <= successes[i].serial
  {
    if i > 0 {
      SerialsAtLeast(successes, i - 1);
    }
  }

  lemma RunCons(w: World, step: Step, rest: seq<Step>)
    requires Enabled(w, step) && ValidRun(Next(w, step), rest)
    ensures ValidRun(w, [step] + rest) && Run(w, [step] + rest) == Run(Next(w, step), rest)
  {
    assert ([step] + rest)[1..] == rest;
  }

  // ---------------------------------------------------------------- comparisons with one code, interleaved

  /** How many comparisons a call still in flight can bring about: its own, or those a reset counter lets in. */
  function Allows(p: Phase): nat {
    match p
    case Counted(attempts) => if attempts <= OTP_MAX_ATTEMPTS then 1 else 0
    case Checked => 1
    case Won => OTP_MAX_ATTEMPTS
    case _ => 0
  }

  function InFlight(calls: seq<Verification>): nat {
    if calls == [] then 0 else InFlight(calls[..|calls| - 1]) + Allows(calls[|calls| - 1].phase)
  }

  lemma InFlightArrives(calls: seq<Verification>, v: Verification)
    ensures InFlight(calls + [v]) == InFlight(calls) + Allows(v.phase)
  {
    assert (calls + [v])[..|calls|] == calls;
  }

  lemma {:induction false} InFlightMoves(calls: seq<Verification>, c: nat, v: Verification)
    requires c < |calls|
    ensures InFlight(calls[c := v]) + Allows(calls[c].phase) == InFlight(calls) + Allows(v.phase)
    decreases |calls|
  {
    var n := |calls| - 1;
    if c == n {
      assert calls[c := v][..n] == calls[..n];
    } else {
      InFlightMoves(calls[..n], c, v);
      assert calls[c := v][..n] == calls[..n][c := v];
    }
  }

  lemma {:induction false} SomeCallAllows(calls: seq<Verification>) returns (c: nat)
    requires InFlight(calls) > 0
    ensures c < |calls| && Allows(calls[c].phase) > 0
    decreases |calls|
  {
    var n := |calls| - 1;
    if Allows(calls[n].phase) > 0 {
      c := n;
    } else {
      c := SomeCallAllows(calls[..n]);
    }
  }

  lemma {:induction false} NoCallAllows(calls: seq<Verification>)
    ensures InFlight(calls) == 0 <==> forall c :: 0 <= c < |calls| ==> Allows(calls[c].phase) == 0
    decreases |calls|
  {
    if calls != [] {
      var n := |calls| - 1;
      NoCallAllows(calls[..n]);
      assert forall c :: 0 <= c < n ==> calls[..n][c] == calls[c];
    }
  }

  /** Arrivals the counter still lets in. */
  function Fresh(k: Keys): nat { if Attempts(k) < OTP_MAX_ATTEMPTS then OTP_MAX_ATTEMPTS - Attempts(k) else 0 }

  /** Comparisons made and still possible with the current code, while it lives. */
  function Budget(w: World): nat { w.compared + Fresh(w.keys) + InFlight(w.calls) }

  /** The counter, once it has a TTL, outlives the code. */
  predicate CounterOutlives(k: Keys) {
    CodeLive(k) ==>
      && k.code.value.dropsAt <= k.now + OTP_TTL_MS
      && (k.attempts.Some? && k.attempts.value.dropsAt.Some? ==> k.code.value.dropsAt <= k.attempts.value.dropsAt.value)
  }

  predicate Within(w: World, bound: nat) {
    && CounterOutlives(w.keys)
    && w.compared <= bound
    && (CodeLive(w.keys) ==> Budget(w) <= bound)
  }

  lemma GuardWithinBudget(w: World, c: nat, bound: nat)
    requires Enabled(w, Guard(c)) && Within(w, bound)
    ensures Within(Next(w, Guard(c)), bound)
  {
    InFlightMoves(w.calls, c, Next(w, Guard(c)).calls[c]);
  }

  lemma ReadWithinBudget(w: World, c: nat, bound: nat)
    requires Enabled(w, Read(c)) && Within(w, bound)
    ensures Within(Next(w, Read(c)), bound)
  {
    InFlightMoves(w.calls, c, Next(w, Read(c)).calls[c]);
  }

  lemma DropWithinBudget(w: World, c: nat, bound: nat)
    requires Enabled(w, Drop(c)) && Within(w, bound)
    ensures Within(Next(w, Drop(c)), bound)
  {
    InFlightMoves(w.calls, c, Next(w, Drop(c)).calls[c]);
  }

  lemma ConsumeWithinBudget(w: World, c: nat, bound: nat)
    requires Enabled(w, Consume(c)) && Within(w, bound)
    ensures Within(Next(w, Consume(c)), bound)
  {
    InFlightMoves(w.calls, c, Next(w, Consume(c)).calls[c]);
  }

  lemma ResetWithinBudget(w: World, c: nat, bound: nat)
    requires Enabled(w, Reset(c)) && Within(w, bound)
    ensures Within(Next(w, Reset(c)), bound)
  {
    InFlightMoves(w.calls, c, Next(w, Reset(c)).calls[c]);
  }

  /** Every step of a call moves it on: the budget changes by what the call allowed and allows. */
  lemma StepWithinBudget(w: World, step: Step, bound: nat)
    requires Enabled(w, step) && !step.Write? && Within(w, bound)
    ensures Within(Next(w, step), bound)
  {
    match step {
      case Acquire =>
      case Arrive(submitted) => InFlightArrives(w.calls, Next(w, step).calls[|w.calls|]);
      case Guard(c) => GuardWithinBudget(w, c, bound);
      case Read(c) => ReadWithinBudget(w, c, bound);
      case Drop(c) => DropWithinBudget(w, c, bound);
      case Consume(c) => ConsumeWithinBudget(w, c, bound);
      case Reset(c) => ResetWithinBudget(w, c, bound);
      case Pass(_) =>
    }
  }

  /** No further code is written. */
  predicate NoWrite(steps: seq<Step>) { forall i :: 0 <= i < |steps| ==> !steps[i].Write? }

  lemma {:induction false} RunWithinBudget(w: World, steps: seq<Step>, bound: nat)
    requires ValidRun(w, steps) && NoWrite(steps) && Within(w, bound)
    ensures Within(Run(w, steps), bound)
    decreases |steps|
  {
    if steps != [] {
      StepWithinBudget(w, steps[0], bound);
      RunWithinBudget(Next(w, steps[0]), steps[1..], bound);
    }
  }

  // ---------------------------------------------------------------- ... and the budget is reached

  /** The current code can still be compared with. */
  predicate Comparable(k: Keys) { CodeLive(k) && k.now <= k.code.value.raw.expiresAt }

  lemma ReadSpends(w: World, c: nat)
    requires Comparable(w.keys) && Enabled(w, Read(c))
    ensures var after := Next(w, Read(c));
      Comparable(after.keys) && Budget(after) == Budget(w) && after.compared == w.compared + 1
  {
    InFlightMoves(w.calls, c, Next(w, Read(c)).calls[c]);
  }

  lemma GuardKeepsBudget(w: World, c: nat)
    requires Comparable(w.keys) && Enabled(w, Guard(c)) && w.calls[c].phase.attempts <= OTP_MAX_ATTEMPTS
    ensures var after := Next(w, Guard(c));
      && Comparable(after.keys) && Budget(after) == Budget(w) && after.compared == w.compared
      && Enabled(after, Read(c))
  {
    InFlightMoves(w.calls, c, Next(w, Guard(c)).calls[c]);
  }

  lemma ArrivalKeepsBudget(w: World, submitted: string)
    requires Comparable(w.keys) && Fresh(w.keys) > 0
    ensures var after := Next(w, Arrive(submitted));
      && Comparable(after.keys) && Budget(after) == Budget(w) && after.compared == w.compared
      && Enabled(after, Guard(|w.calls|)) && after.calls[|w.calls|].phase.attempts <= OTP_MAX_ATTEMPTS
  {
    InFlightArrives(w.calls, Next(w, Arrive(submitted)).calls[|w.calls|]);
  }

  lemma ResetKeepsBudget(w: World, c: nat)
    requires Comparable(w.keys) && Enabled(w, Reset(c)) && Fresh(w.keys) == 0
    ensures var after := Next(w, Reset(c));
      && Comparable(after.keys) && Budget(after) == Budget(w) && after.compared == w.compared && Fresh(after.keys) > 0
  {
    InFlightMoves(w.calls, c, Next(w, Reset(c)).calls[c]);
  }

  /** The steps towards one more comparison, while the budget is not spent. */
  lemma OneMoreComparison(w: World) returns (steps: seq<Step>)
    requires Comparable(w.keys) && w.compared < Budget(w)
    ensures ValidRun(w, steps) && NoWrite(steps)
    ensures var after := Run(w, steps);
      Comparable(after.keys) && Budget(after) == Budget(w) && after.compared == w.compared + 1
  {
    if Fresh(w.keys) > 0 {
      steps := ArriveAndCompare(w);
    } else {
      var c := SomeCallAllows(w.calls);
      match w.calls[c].phase {
        case Checked =>
          ReadSpends(w, c);
          RunCons(w, Read(c), []);
          steps := [Read(c)] + [];
        case Counted(_) =>
          steps := GuardAndCompare(w, c);
        case Won =>
          ResetKeepsBudget(w, c);
          var rest := ArriveAndCompare(Next(w, Reset(c)));
          RunCons(w, Reset(c), rest);
          steps := [Reset(c)] + rest;
      }
    }
  }

  lemma GuardAndCompare(w: World, c: nat) returns (steps: seq<Step>)
    requires Comparable(w.keys) && Enabled(w, Guard(c)) && w.calls[c].phase.attempts <= OTP_MAX_ATTEMPTS
    ensures ValidRun(w, steps) && NoWrite(steps)
    ensures var after := Run(w, steps);
      Comparable(after.keys) && Budget(after) == Budget(w) && after.compared == w.compared + 1
  {
    GuardKeepsBudget(w, c);
    var guarded := Next(w, Guard(c));
    ReadSpends(guarded, c);
    RunCons(guarded, Read(c), []);
    RunCons(w, Guard(c), [Read(c)] + []);
    steps := [Guard(c)] + ([Read(c)] + []);
  }

  lemma ArriveAndCompare(w: World) returns (steps: seq<Step>)
    requires Comparable(w.keys) && Fresh(w.keys) > 0
    ensures ValidRun(w, steps) && NoWrite(steps)
    ensures var after := Run(w, steps);
      Comparable(after.keys) && Budget(after) == Budget(w) && after.compared == w.compared + 1
  {
    ArrivalKeepsBudget(w, "");
    var rest := GuardAndCompare(Next(w, Arrive("")), |w.calls|);
    RunCons(w, Arrive(""), rest);
    steps := [Arrive("")] + rest;
  }

  lemma {:induction false} RunConcat(w: World, a: seq<Step>, b: seq<Step>)
    requires ValidRun(w, a) && ValidRun(Run(w, a), b)
    ensures ValidRun(w, a + b) && Run(w, a + b) == Run(Run(w, a), b)
    decreases |a|
  {
    if a == [] {
      assert a + b == b;
    } else {
      assert (a + b)[1..] == a[1..] + b;
      RunConcat(Next(w, a[0]), a[1..], b);
    }
  }

  lemma {:induction false} SpendTheBudget(w: World) returns (steps: seq<Step>)
    requires Comparable(w.keys)
    ensures ValidRun(w, steps) && NoWrite(steps) && Run(w, steps).compared == Budget(w)
    decreases Budget(w) - w.compared
  {
    if w.compared == Budget(w) {
      steps := [];
    } else {
      var first := OneMoreComparison(w);
      var rest := SpendTheBudget(Run(w, first));
      RunConcat(w, first, rest);
      steps := first + rest;
    }
  }

  /** A code written after its expiry is never compared with. */
  predicate NeverCompared(w: World) {
    w.compared == 0 && (w.keys.code.Some? ==> w.keys.code.value.raw.expiresAt < w.keys.now)
  }

  lemma {:induction false} LateCodeIsNeverCompared(w: World, steps: seq<Step>)
    requires ValidRun(w, steps) && NoWrite(steps) && NeverCompared(w)
    ensures NeverCompared(Run(w, steps))
    decreases |steps|
  {
    if steps != [] {
      assert NeverCompared(Next(w, steps[0]));
      LateCodeIsNeverCompared(Next(w, steps[0]), steps[1..]);
    }
  }

  /** Until the next code is written there are at most so many comparisons, whatever happens. */
  ghost predicate StaysWithin(w: World, bound: nat) {
    forall steps :: ValidRun(w, steps) && NoWrite(steps) ==> Run(w, steps).compared <= bound
  }

  /**
   * The exact bound on the comparisons with one code, in any interleaving: five, plus one for every verification in
   * flight at its writing that has yet to compare, plus five for every one that has yet to delete the counter; none
   * at all if the code is written after its expiry.
   */
  lemma ComparisonsPerCodeIff(w: World, expiresAt: int, code: string, bound: nat)
    requires Enabled(w, Write(expiresAt, code))
    ensures StaysWithin(Next(w, Write(expiresAt, code)), bound) <==>
      w.keys.now > expiresAt || OTP_MAX_ATTEMPTS + InFlight(w.calls) <= bound
  {
    var written := Next(w, Write(expiresAt, code));
    assert Budget(written) == OTP_MAX_ATTEMPTS + InFlight(w.calls);
    if w.keys.now > expiresAt || Budget(written) <= bound {
      forall steps | ValidRun(written, steps) && NoWrite(steps)
        ensures Run(written, steps).compared <= bound
      {
        if w.keys.now > expiresAt {
          LateCodeIsNeverCompared(written, steps);
        } else {
          RunWithinBudget(written, steps, bound);
        }
      }
    } else {
      var steps := SpendTheBudget(written);
      assert Run(written, steps).compared == Budget(written);
    }
  }

  /** A verification that a newly written code does not count: it may yet compare, or delete the counter. */
  predicate Uncounted(p: Phase) {
    p.Checked? || p.Won? || (p.Counted? && p.attempts <= OTP_MAX_ATTEMPTS)
  }

  /** The attempt limit holds for a code exactly when no uncounted verification is in flight at its writing. */
  lemma AttemptLimitHoldsIff(w: World, expiresAt: int, code: string)
    requires Enabled(w, Write(expiresAt, code)) && w.keys.now <= expiresAt
    ensures StaysWithin(Next(w, Write(expiresAt, code)), OTP_MAX_ATTEMPTS) <==>
      forall c :: 0 <= c < |w.calls| ==> !Uncounted(w.calls[c].phase)
  {
    ComparisonsPerCodeIff(w, expiresAt, code, OTP_MAX_ATTEMPTS);
    NoCallAllows(w.calls);
    forall c | 0 <= c < |w.calls|
      ensures Uncounted(w.calls[c].phase) <==> Allows(w.calls[c].phase) != 0
    {
    }
  }

  lemma {:induction false} NoWriteKeepsCodes(w: World, steps: seq<Step>)
    requires ValidRun(w, steps) && NoWrite(steps)
    ensures Run(w, steps).codes == w.codes
    decreases |steps|
  {
    if steps != [] {
      NoWriteKeepsCodes(Next(w, steps[0]), steps[1..]);
    }
  }

  /** A verification counted before the only code was written. */
  function CarriedOver(submitted: string, code: string): World {
    World(Keys(Some(CodeKey(Raw(code, OTP_TTL_MS), OTP_TTL_MS, 0)), None, Some(OTP_RESEND_COOLDOWN_MS), 0),
          multiset{}, [Verification(submitted, Checked)], [code], 0, [])
  }

  lemma CarriedOverIsReachable(submitted: string, code: string) returns (steps: seq<Step>)
    ensures ValidRun(IDLE, steps) && Run(IDLE, steps) == CarriedOver(submitted, code)
  {
    var w1 := Next(IDLE, Arrive(submitted));
    var w2 := Next(w1, Guard(0));
    var w3 := Next(w2, Acquire);
    assert w3.issuing == multiset{OTP_TTL_MS};
    var w4 := Next(w3, Write(OTP_TTL_MS, code));
    assert w4 == CarriedOver(submitted, code);
    RunCons(w3, Write(OTP_TTL_MS, code), []);
    steps := [Write(OTP_TTL_MS, code)] + [];
    RunCons(w2, Acquire, steps);
    steps := [Acquire] + steps;
    RunCons(w1, Guard(0), steps);
    steps := [Guard(0)] + steps;
    RunCons(IDLE, Arrive(submitted), steps);
    steps := [Arrive(submitted)] + steps;
  }

  /** A reachable breach: six comparisons with the only code ever written. */
  lemma OverlappingVerificationBreaksTheLimit(submitted: string, code: string) returns (steps: seq<Step>)
    ensures ValidRun(IDLE, steps)
    ensures Run(IDLE, steps).compared == OTP_MAX_ATTEMPTS + 1 && Run(IDLE, steps).codes == [code]
  {
    var w := CarriedOver(submitted, code);
    var first := CarriedOverIsReachable(submitted, code);
    InFlightArrives([], w.calls[0]);
    assert [] + [w.calls[0]] == w.calls;
    var rest := SpendTheBudget(w);
    NoWriteKeepsCodes(w, rest);
    RunConcat(IDLE, first, rest);
    steps := first + rest;
  }

  // ---------------------------------------------------------------- the calls are their commands

  /** One step at a time: an uninterrupted verification is its own commands with nothing in between. */
  lemma VerificationIsItsCommands(w: World, submitted: string) returns (steps: seq<Step>)
    ensures ValidRun(w, steps)
    ensures var v, end := VerifyAtomic(w.keys, submitted), Run(w, steps);
      && end.keys == v.keys && end.calls == w.calls + [Verification(submitted, Done(v.result))]
      && end.compared == w.compared + (if v.compared then 1 else 0)
      && end.codes == w.codes && end.issuing == w.issuing
  {
    var c, v := |w.calls|, VerifyAtomic(w.keys, submitted);
    var arrived := Next(w, Arrive(submitted));
    var guarded := Next(arrived, Guard(c));
    var rest := [];
    if v.result != TooManyAttempts {
      rest := ReadingIsItsCommands(guarded, c);
    }
    RunCons(arrived, Guard(c), rest);
    RunCons(w, Arrive(submitted), [Guard(c)] + rest);
    steps := [Arrive(submitted)] + ([Guard(c)] + rest);
  }

  /** What a verification within its attempts does: the value that it finds decides. */
  function AfterGuard(k: Keys, submitted: string): Verified {
    match Compare(GetCode(k), submitted, k.now)
    case Missing => Verified(k, Consumed, false)
    case TooLate => Verified(DelCode(k), Expired, false)
    case Mismatch => Verified(k, Invalid, true)
    case Match => Verified(DelAttempts(CompareAndDelete(k, GetCode(k).value)), Ok, true)
  }

  lemma ReadingIsItsCommands(w: World, c: nat) returns (steps: seq<Step>)
    requires Enabled(w, Read(c))
    ensures ValidRun(w, steps)
    ensures var v, end := AfterGuard(w.keys, w.calls[c].submitted), Run(w, steps);
      && end.keys == v.keys && end.calls == w.calls[c := w.calls[c].(phase := Done(v.result))]
      && end.compared == w.compared + (if v.compared then 1 else 0)
      && end.codes == w.codes && end.issuing == w.issuing
  {
    var read := Next(w, Read(c));
    var rest := [];
    match read.calls[c].phase {
      case Late =>
        RunCons(read, Drop(c), []);
        rest := [Drop(c)] + [];
      case Matched(_) =>
        var consumed := Next(read, Consume(c));
        RunCons(consumed, Reset(c), []);
        RunCons(read, Consume(c), [Reset(c)] + []);
        rest := [Consume(c)] + ([Reset(c)] + []);
      case _ =>
    }
    RunCons(w, Read(c), rest);
    steps := [Read(c)] + rest;
  }

  // ---------------------------------------------------------------- the cooldown

  lemma {:induction false} TimeOnlyGrows(w: World, steps: seq<Step>)
    requires ValidRun(w, steps)
    ensures w.keys.now <= Run(w, steps).keys.now
    decreases |steps|
  {
    if steps != [] {
      TimeOnlyGrows(Next(w, steps[0]), steps[1..]);
    }
  }

  /** Until the cooldown ends, codes are only written by those who were already issuing. */
  lemma {:induction false} CooldownHolds(w: World, steps: seq<Step>, until: int)
    requires ValidRun(w, steps) && w.keys.cooldown == Some(until) && Run(w, steps).keys.now < until
    ensures |Run(w, steps).codes| + |Run(w, steps).issuing| == |w.codes| + |w.issuing|
    decreases |steps|
  {
    if steps != [] {
      TimeOnlyGrows(w, steps);
      CooldownHolds(Next(w, steps[0]), steps[1..], until);
    }
  }

  /**
   * An issuer is let in exactly when no cooldown runs; and then, whatever else happens within thirty seconds of it,
   * nobody else is: the codes written and being issued are one more than before.
   */
  lemma OneIssuerPerCooldown(w: World, steps: seq<Step>)
    requires ValidRun(Next(w, Acquire), steps)
    requires Run(Next(w, Acquire), steps).keys.now < w.keys.now + 30_000
    ensures var end, free := Run(Next(w, Acquire), steps), w.keys.cooldown.None? || w.keys.cooldown.value <= w.keys.now;
      free ==> |end.codes| + |end.issuing| == |w.codes| + |w.issuing| + 1
    ensures w.keys.cooldown.Some? && w.keys.now < w.keys.cooldown.value ==> Next(w, Acquire) == w
  {
    if w.keys.cooldown.None? || w.keys.cooldown.value <= w.keys.now {
      CooldownHolds(Next(w, Acquire), steps, w.keys.now + 30_000);
    }
  }
}
