/**
 * The per-account lock around signing and submission: a promise chain inside each process, and a Redis token
 * with a TTL across processes. A ticket is one call of `withAccountSequenceLock`; its number is its token.
 */
module AccountSequence {
  import opened Prelude

  const LOCK_TTL_MS: int := 120_000
  const LOCK_WAIT_MS: int := 55_000

  type Process = nat
  type Account = string

  datatype Phase =
    | Waiting                       // awaiting the preceding promise
    | Acquiring(deadline: int, asked: bool)   // between turns of the loop, or awaiting a SET
    | Running(lease: Option<int>)   // inside the operation; when the token expires, if there is one
    | Leaving                       // the operation is over and the token given back
    | Released                      // the promise is resolved

  datatype Ticket = Ticket(process: Process, account: Account, redis: bool, pred: Option<nat>, phase: Phase)

  datatype Token = Token(holder: nat, expiresAt: int)

  datatype State = State(
    tickets: seq<Ticket>, tails: map<(Process, Account), nat>, tokens: map<Account, Token>, now: int)

  const EMPTY := State([], map[], map[], 0)

  datatype Step =
    | Call(process: Process, account: Account, redis: bool)
    | Enter(ticket: nat)
    | Ask(ticket: nat)                       // a turn of the loop: send the SET
    | TrySet(ticket: nat)                    // the SET lands, and its reply is received
    | GiveUp(ticket: nat, landed: bool)      // the wait is over, or the SET threw; did it reach Redis all the same?
    | Finish(ticket: nat, reached: bool)     // the operation ended; did the release reach Redis?
    | Leave(ticket: nat)
    | Tick(elapsed: nat)

  function KeyOf(t: Ticket): (Process, Account) { (t.process, t.account) }

  predicate Resolved(s: State, pred: Option<nat>) {
    pred.Some? ==> pred.value < |s.tickets| && s.tickets[pred.value].phase.Released?
  }

  predicate TokenLive(s: State, account: Account) {
    account in s.tokens && s.now < s.tokens[account].expiresAt
  }

  predicate Enabled(s: State, step: Step) {
    match step
    case Call(_, _, _) => true
    case Enter(t) => t < |s.tickets| && s.tickets[t].phase.Waiting? && Resolved(s, s.tickets[t].pred)
    case Ask(t) =>
      && t < |s.tickets| && s.tickets[t].phase.Acquiring?
      && !s.tickets[t].phase.asked && s.now < s.tickets[t].phase.deadline
    case TrySet(t) => t < |s.tickets| && s.tickets[t].phase.Acquiring? && s.tickets[t].phase.asked
    case GiveUp(t, landed) =>
      && t < |s.tickets| && s.tickets[t].phase.Acquiring?
      && (s.tickets[t].phase.asked || (s.now >= s.tickets[t].phase.deadline && !landed))
    case Finish(t, _) => t < |s.tickets| && s.tickets[t].phase.Running?
    case Leave(t) => t < |s.tickets| && s.tickets[t].phase.Leaving?
    case Tick(_) => true
  }

  function SetPhase(s: State, t: nat, phase: Phase): State
    requires t < |s.tickets|
  {
    s.(tickets := s.tickets[t := s.tickets[t].(phase := phase)])
  }

  /** Resolve the promise, and drop the map entry if it is still ours. */
  function Release(s: State, t: nat): State
    requires t < |s.tickets|
  {
    var key := KeyOf(s.tickets[t]);
    var done := SetPhase(s, t, Released);
    if key in s.tails && s.tails[key] == t then done.(tails := s.tails - {key}) else done
  }

  /** SET NX PX: nothing happens while somebody's token is live. */
  function SetToken(s: State, t: nat): State
    requires t < |s.tickets|
  {
    var account := s.tickets[t].account;
    if TokenLive(s, account) then s else s.(tokens := s.tokens[account := Token(t, s.now + LOCK_TTL_MS)])
  }

  function Next(s: State, step: Step): State
    requires Enabled(s, step)
  {
    match step
    case Call(process, account, redis) =>
      var key := (process, account);
      var pred := if key in s.tails then Some(s.tails[key]) else None;
      s.(tickets := s.tickets + [Ticket(process, account, redis, pred, Waiting)],
         tails := s.tails[key := |s.tickets|])
    case Enter(t) =>
      SetPhase(s, t, if s.tickets[t].redis then Acquiring(s.now + LOCK_WAIT_MS, false) else Running(None))
    case Ask(t) => SetPhase(s, t, s.tickets[t].phase.(asked := true))
    case TrySet(t) =>
      if TokenLive(s, s.tickets[t].account) then SetPhase(s, t, s.tickets[t].phase.(asked := false))
      else SetPhase(SetToken(s, t), t, Running(Some(s.now + LOCK_TTL_MS)))
    case GiveUp(t, landed) => Release(if landed then SetToken(s, t) else s, t)
    case Finish(t, reached) =>
      var account := s.tickets[t].account;
      var left := SetPhase(s, t, Leaving);
      if s.tickets[t].redis && reached && TokenLive(s, account) && s.tokens[account].holder == t
      then left.(tokens := s.tokens - {account})
      else left
    case Leave(t) => Release(s, t)
    case Tick(elapsed) => s.(now := s.now + elapsed)
  }

  predicate ValidRun(s: State, steps: seq<Step>)
    decreases |steps|
  {
    steps == [] || (Enabled(s, steps[0]) && ValidRun(Next(s, steps[0]), steps[1..]))
  }

  function Run(s: State, steps: seq<Step>): State
    requires ValidRun(s, steps)
    decreases |steps|
  {
    if steps == [] then s else Run(Next(s, steps[0]), steps[1..])
  }

  // ---------------------------------------------------------------- the lock, segment by segment

  /** The shared map, the Redis keys and the calls in progress, updated between two awaits at a time. */
  class AccountLocks {
    var tickets: seq<Ticket>
    var tails: map<(Process, Account), nat>
    var tokens: map<Account, Token>
    var now: int

    constructor ()
      ensures View() == EMPTY
    {
      tickets, tails, tokens, now := [], map[], map[], 0;
    }

    function View(): State
      reads this
    {
      State(tickets, tails, tokens, now)
    }

    /** From the call to `await preceding`. */
    method Begin(process: Process, account: Account, redis: bool) returns (ticket: nat)
      modifies this
      ensures ticket == |old(tickets)| && tokens == old(tokens) && now == old(now)
      ensures var key := (process, account);
        && tickets == old(tickets) +
             [Ticket(process, account, redis, if key in old(tails) then Some(old(tails)[key]) else None, Waiting)]
        && tails == old(tails)[key := ticket]
      ensures View() == Next(old(View()), Call(process, account, redis))
    {
      ticket := |tickets|;
      var key := (process, account);
      var preceding: Option<nat> := None;
      if key in tails {
        preceding := Some(tails[key]);
      }
      tickets := tickets + [Ticket(process, account, redis, preceding, Waiting)];
      tails := tails[key := ticket];
    }

    /** From the resolution of the preceding promise to the operation or to the first SET. */
    method EnterChain(ticket: nat)
      requires Enabled(View(), Enter(ticket))
      modifies this
      ensures tails == old(tails) && tokens == old(tokens) && now == old(now)
      ensures var t := old(tickets)[ticket];
        tickets == old(tickets)[ticket := t.(phase := if t.redis then Acquiring(now + 55_000, false) else Running(None))]
      ensures View() == Next(old(View()), Enter(ticket))
    {
      var phase := Running(None);
      if tickets[ticket].redis {
        phase := Acquiring(now + LOCK_WAIT_MS, false);
      }
      tickets := tickets[ticket := tickets[ticket].(phase := phase)];
    }

    /** The guard of the acquisition loop: send a SET, or throw. */
    method NextTurn(ticket: nat) returns (asked: bool)
      requires ticket < |tickets| && tickets[ticket].phase.Acquiring? && !tickets[ticket].phase.asked
      modifies this
      ensures asked <==> old(now) < old(tickets)[ticket].phase.deadline
      ensures asked == Enabled(old(View()), Ask(ticket))
      ensures View() == if asked then Next(old(View()), Ask(ticket)) else Next(old(View()), GiveUp(ticket, false))
    {
      asked := now < tickets[ticket].phase.deadline;
      if asked {
        tickets := tickets[ticket := tickets[ticket].(phase := tickets[ticket].phase.(asked := true))];
      } else {
        ResolvePromise(ticket);
      }
    }

    /** SET NX PX lands: true when the token is now ours. */
    method SetTokenIfFree(ticket: nat) returns (acquired: bool)
      requires ticket < |tickets|
      modifies this`tokens
      ensures var account := tickets[ticket].account;
        && (acquired <==> (account in old(tokens) ==> old(tokens)[account].expiresAt <= now))
        && tokens == if acquired then old(tokens)[account := Token(ticket, now + 120_000)] else old(tokens)
      ensures acquired == !TokenLive(old(View()), tickets[ticket].account)
      ensures View() == SetToken(old(View()), ticket)
    {
      var account := tickets[ticket].account;
      if account in tokens && now < tokens[account].expiresAt {
        return false;
      }
      tokens := tokens[account := Token(ticket, now + LOCK_TTL_MS)];
      return true;
    }

    /** The reply to the SET: run the operation, or go round again. */
    method AwaitSet(ticket: nat) returns (acquired: bool)
      requires Enabled(View(), TrySet(ticket))
      modifies this
      ensures tails == old(tails) && now == old(now)
      ensures var t := old(tickets)[ticket];
        && (acquired <==> (t.account in old(tokens) ==> old(tokens)[t.account].expiresAt <= now))
        && (acquired ==>
              && tokens == old(tokens)[t.account := Token(ticket, now + 120_000)]
              && tickets == old(tickets)[ticket := t.(phase := Running(Some(now + 120_000)))])
        && (!acquired ==>
              && tokens == old(tokens)
              && tickets == old(tickets)[ticket := t.(phase := Acquiring(t.phase.deadline, false))])
      ensures View() == Next(old(View()), TrySet(ticket))
    {
      acquired := SetTokenIfFree(ticket);
      var phase := tickets[ticket].phase.(asked := false);
      if acquired {
        phase := Running(Some(now + LOCK_TTL_MS));
      }
      tickets := tickets[ticket := tickets[ticket].(phase := phase)];
    }

    /** The SET throws, possibly after it has reached Redis: the token is then nobody's until it expires. */
    method LoseSet(ticket: nat, landed: bool)
      requires Enabled(View(), TrySet(ticket))
      modifies this
      ensures View() == Next(old(View()), GiveUp(ticket, landed))
    {
      if landed {
        var _ := SetTokenIfFree(ticket);
      }
      ResolvePromise(ticket);
    }

    /** The inner `finally`: compare-and-delete, whose failure is swallowed. */
    method GiveBackToken(ticket: nat, reached: bool)
      requires Enabled(View(), Finish(ticket, reached))
      modifies this
      ensures tickets == old(tickets)[ticket := old(tickets)[ticket].(phase := Leaving)]
      ensures tails == old(tails) && now == old(now)
      ensures var account := old(tickets)[ticket].account;
        tokens ==
          if old(tickets)[ticket].redis && reached && account in old(tokens)
             && now < old(tokens)[account].expiresAt && old(tokens)[account].holder == ticket
          then old(tokens) - {account} else old(tokens)
      ensures View() == Next(old(View()), Finish(ticket, reached))
    {
      var t := tickets[ticket];
      if t.redis && reached {
        if t.account in tokens && now < tokens[t.account].expiresAt && tokens[t.account].holder == ticket {
          tokens := tokens - {t.account};
        }
      }
      tickets := tickets[ticket := t.(phase := Leaving)];
    }

    /** The outer `finally`. */
    method ResolvePromise(ticket: nat)
      requires ticket < |tickets|
      modifies this
      ensures tickets == old(tickets)[ticket := old(tickets)[ticket].(phase := Released)]
      ensures tokens == old(tokens) && now == old(now)
      ensures var key := (old(tickets)[ticket].process, old(tickets)[ticket].account);
        tails == if key in old(tails) && old(tails)[key] == ticket then old(tails) - {key} else old(tails)
      ensures View() == Release(old(View()), ticket)
    {
      var key := KeyOf(tickets[ticket]);
      tickets := tickets[ticket := tickets[ticket].(phase := Released)];
      if key in tails && tails[key] == ticket {
        tails := tails - {key};
      }
    }
  }

  // ---------------------------------------------------------------- invariant

  predicate Live(t: Ticket) { !t.phase.Released? }

  predicate Entered(t: Ticket) { !t.phase.Waiting? }

  /** Every earlier ticket of the same process and account is released. */
  ghost predicate ClearBefore(s: State, t: nat)
    requires t < |s.tickets|
  {
    forall j :: 0 <= j < t && KeyOf(s.tickets[j]) == KeyOf(s.tickets[t]) ==> s.tickets[j].phase.Released?
  }

  ghost predicate LatestBefore(s: State, p: nat, t: nat)
    requires t < |s.tickets|
  {
    && p < t && KeyOf(s.tickets[p]) == KeyOf(s.tickets[t])
    && forall j :: p < j < t ==> KeyOf(s.tickets[j]) != KeyOf(s.tickets[t])
  }

  /** Each ticket waits for the latest earlier ticket of its process and account. */
  ghost predicate ChainOk(s: State, t: nat)
    requires t < |s.tickets|
  {
    var ticket := s.tickets[t];
    && (ticket.pred.Some? ==> LatestBefore(s, ticket.pred.value, t))
    && (ticket.pred.None? || Entered(ticket) ==> ClearBefore(s, t))
  }

  ghost predicate TailOk(s: State, key: (Process, Account)) {
    if key in s.tails then
      && s.tails[key] < |s.tickets| && KeyOf(s.tickets[s.tails[key]]) == key && Live(s.tickets[s.tails[key]])
      && forall j :: s.tails[key] < j < |s.tickets| ==> KeyOf(s.tickets[j]) != key
    else
      forall j :: 0 <= j < |s.tickets| && KeyOf(s.tickets[j]) == key ==> s.tickets[j].phase.Released?
  }

  /** A holder within its lease owns the token. */
  ghost predicate LeaseOk(s: State, t: nat)
    requires t < |s.tickets|
  {
    var ticket := s.tickets[t];
    && (ticket.phase.Running? && ticket.phase.lease.Some? && s.now < ticket.phase.lease.value ==>
          ticket.account in s.tokens && s.tokens[ticket.account] == Token(t, ticket.phase.lease.value))
    && (ticket.phase.Running? && ticket.phase.lease.Some?
        && ticket.account in s.tokens && s.tokens[ticket.account].holder == t ==>
          s.tokens[ticket.account].expiresAt == ticket.phase.lease.value)
    && (ticket.phase.Acquiring? ==> ticket.redis)
    && (ticket.phase.Running? ==> (ticket.redis <==> ticket.phase.lease.Some?))
  }

  ghost predicate Inv(s: State) {
    && (forall t :: 0 <= t < |s.tickets| ==> ChainOk(s, t))
    && (forall key :: TailOk(s, key))
    && (forall t :: 0 <= t < |s.tickets| ==> LeaseOk(s, t))
  }

  /** A ticket whose predecessor is resolved has nobody before it. */
  lemma ResolvedIsClear(s: State, t: nat)
    requires Inv(s) && t < |s.tickets| && Resolved(s, s.tickets[t].pred)
    ensures ClearBefore(s, t)
  {
    assert ChainOk(s, t);
    if s.tickets[t].pred.Some? {
      var p := s.tickets[t].pred.value;
      assert ChainOk(s, p);
      forall j | 0 <= j < t && KeyOf(s.tickets[j]) == KeyOf(s.tickets[t])
        ensures s.tickets[j].phase.Released?
      {
        assert j <= p;
      }
    }
  }

  /** Moving a ticket that has nobody before it keeps the chains. */
  lemma SetPhaseKeepsChains(s: State, t: nat, phase: Phase)
    requires Inv(s) && t < |s.tickets| && Live(s.tickets[t]) && !phase.Waiting? && ClearBefore(s, t)
    ensures forall i :: 0 <= i < |s.tickets| ==> ChainOk(SetPhase(s, t, phase), i)
  {
    var after := SetPhase(s, t, phase);
    forall i | 0 <= i < |s.tickets|
      ensures ChainOk(after, i)
    {
      assert ChainOk(s, i);
      assert forall j :: 0 <= j < |s.tickets| ==> KeyOf(after.tickets[j]) == KeyOf(s.tickets[j]);
    }
  }

  lemma ReleaseKeepsInv(s: State, t: nat)
    requires Inv(s) && t < |s.tickets| && Entered(s.tickets[t]) && Live(s.tickets[t])
    ensures Inv(Release(s, t))
  {
    var mid, after := SetPhase(s, t, Released), Release(s, t);
    assert ChainOk(s, t);
    SetPhaseKeepsChains(s, t, Released);
    forall i | 0 <= i < |s.tickets|
      ensures ChainOk(after, i) && LeaseOk(after, i)
    {
      assert ChainOk(mid, i) && LeaseOk(s, i);
    }
    forall key
      ensures TailOk(after, key)
    {
      assert TailOk(s, key);
    }
  }

  /** A SET takes nothing from anybody within a lease. */
  lemma SetKeepsInv(s: State, t: nat)
    requires Inv(s) && t < |s.tickets| && s.tickets[t].phase.Acquiring?
    ensures Inv(SetToken(s, t))
  {
    var after := SetToken(s, t);
    forall i | 0 <= i < |s.tickets|
      ensures ChainOk(after, i) && LeaseOk(after, i)
    {
      assert ChainOk(s, i) && LeaseOk(s, i);
    }
    forall key
      ensures TailOk(after, key)
    {
      assert TailOk(s, key);
    }
  }

  lemma CallKeepsInv(s: State, step: Step)
    requires Inv(s) && step.Call?
    ensures Inv(Next(s, step))
  {
    var after, n := Next(s, step), |s.tickets|;
    var key := (step.process, step.account);
    assert TailOk(s, key);
    forall i | 0 <= i <= n
      ensures ChainOk(after, i) && LeaseOk(after, i)
    {
      if i < n {
        assert ChainOk(s, i) && LeaseOk(s, i);
      }
    }
    forall other
      ensures TailOk(after, other)
    {
      assert TailOk(s, other);
    }
  }

  lemma PhaseKeepsInv(s: State, t: nat, phase: Phase, tokens: map<Account, Token>)
    requires Inv(s) && t < |s.tickets| && Live(s.tickets[t]) && ClearBefore(s, t)
    requires phase.Acquiring? || phase.Running? || phase.Leaving?
    requires forall i :: 0 <= i < |s.tickets| ==> LeaseOk(SetPhase(s, t, phase).(tokens := tokens), i)
    ensures Inv(SetPhase(s, t, phase).(tokens := tokens))
  {
    var mid := SetPhase(s, t, phase);
    var after := mid.(tokens := tokens);
    SetPhaseKeepsChains(s, t, phase);
    forall i | 0 <= i < |s.tickets|
      ensures ChainOk(after, i)
    {
      assert ChainOk(mid, i);
    }
    forall key
      ensures TailOk(after, key)
    {
      assert TailOk(s, key);
    }
  }

  lemma PhaseOnlyKeepsInv(s: State, t: nat, phase: Phase)
    requires Inv(s) && t < |s.tickets| && ClearBefore(s, t)
    requires s.tickets[t].phase.Waiting? || s.tickets[t].phase.Acquiring?
    requires if phase.Acquiring? then s.tickets[t].redis else phase == Running(None) && !s.tickets[t].redis
    ensures Inv(SetPhase(s, t, phase))
  {
    var after := SetPhase(s, t, phase);
    assert after.(tokens := s.tokens) == after;
    forall i | 0 <= i < |s.tickets|
      ensures LeaseOk(after, i)
    {
      assert LeaseOk(s, i);
    }
    PhaseKeepsInv(s, t, phase, s.tokens);
  }

  lemma TrySetKeepsInv(s: State, t: nat)
    requires Inv(s) && Enabled(s, TrySet(t))
    ensures Inv(Next(s, TrySet(t)))
  {
    var after := Next(s, TrySet(t));
    assert ChainOk(s, t) && LeaseOk(s, t);
    if TokenLive(s, s.tickets[t].account) {
      PhaseOnlyKeepsInv(s, t, s.tickets[t].phase.(asked := false));
    } else {
      var phase := Running(Some(s.now + LOCK_TTL_MS));
      assert SetPhase(s, t, phase).(tokens := after.tokens) == after;
      forall i | 0 <= i < |s.tickets|
        ensures LeaseOk(after, i)
      {
        assert LeaseOk(s, i);
      }
      PhaseKeepsInv(s, t, phase, after.tokens);
    }
  }

  lemma StepKeepsInv(s: State, step: Step)
    requires Enabled(s, step) && Inv(s)
    ensures Inv(Next(s, step))
  {
    var after := Next(s, step);
    match step {
      case Call(_, _, _) => CallKeepsInv(s, step);
      case Enter(t) =>
        ResolvedIsClear(s, t);
        var phase := if s.tickets[t].redis then Acquiring(s.now + LOCK_WAIT_MS, false) else Running(None);
        PhaseOnlyKeepsInv(s, t, phase);
      case Ask(t) =>
        assert ChainOk(s, t) && LeaseOk(s, t);
        PhaseOnlyKeepsInv(s, t, s.tickets[t].phase.(asked := true));
      case TrySet(t) => TrySetKeepsInv(s, t);
      case GiveUp(t, landed) =>
        SetKeepsInv(s, t);
        ReleaseKeepsInv(if landed then SetToken(s, t) else s, t);
      case Finish(t, _) =>
        assert ChainOk(s, t);
        assert SetPhase(s, t, Leaving).(tokens := after.tokens) == after;
        forall i | 0 <= i < |s.tickets|
          ensures LeaseOk(after, i)
        {
          assert LeaseOk(s, i);
        }
        PhaseKeepsInv(s, t, Leaving, after.tokens);
      case Leave(t) => ReleaseKeepsInv(s, t);
      case Tick(_) => TickKeepsInv(s, after);
    }
  }

  lemma TickKeepsInv(s: State, after: State)
    requires Inv(s) && after == s.(now := after.now) && s.now <= after.now
    ensures Inv(after)
  {
    forall i | 0 <= i < |s.tickets|
      ensures ChainOk(after, i) && LeaseOk(after, i)
    {
      assert ChainOk(s, i) && LeaseOk(s, i);
    }
    forall key
      ensures TailOk(after, key)
    {
      assert TailOk(s, key);
    }
  }

  lemma {:induction false} RunKeepsInv(s: State, steps: seq<Step>)
    requires ValidRun(s, steps) && Inv(s)
    ensures Inv(Run(s, steps))
    decreases |steps|
  {
    if steps != [] {
      StepKeepsInv(s, steps[0]);
      RunKeepsInv(Next(s, steps[0]), steps[1..]);
    }
  }

  // ---------------------------------------------------------------- what every interleaving guarantees

  predicate Inside(t: Ticket) { Entered(t) && Live(t) }

  /**
   * In every interleaving, callers of one account in one process get in one at a time and in arrival order:
   * once a ticket is past its wait, every earlier one has left.
   */
  lemma ArrivalOrderAndExclusion(steps: seq<Step>, i: nat, j: nat)
    requires ValidRun(EMPTY, steps)
    requires var end := Run(EMPTY, steps); i < j < |end.tickets| && KeyOf(end.tickets[i]) == KeyOf(end.tickets[j])
    ensures var end := Run(EMPTY, steps);
      && (Entered(end.tickets[j]) ==> end.tickets[i].phase.Released?)
      && !(Inside(end.tickets[i]) && Inside(end.tickets[j]))
  {
    RunKeepsInv(EMPTY, steps);
    assert ChainOk(Run(EMPTY, steps), j);
  }

  /** The map has an entry exactly while somebody holds or waits, and it is the latest caller. */
  lemma MapEntryIff(steps: seq<Step>, key: (Process, Account))
    requires ValidRun(EMPTY, steps)
    ensures var end := Run(EMPTY, steps);
      && (key in end.tails <==> exists t :: 0 <= t < |end.tickets| && KeyOf(end.tickets[t]) == key && Live(end.tickets[t]))
      && (key in end.tails ==>
            forall t :: 0 <= t < |end.tickets| && KeyOf(end.tickets[t]) == key ==> t <= end.tails[key])
  {
    RunKeepsInv(EMPTY, steps);
    assert TailOk(Run(EMPTY, steps), key);
  }

  /** The first live ticket of an account is never stuck behind another one. */
  lemma FirstLiveTicketCanMove(steps: seq<Step>, t: nat)
    requires ValidRun(EMPTY, steps)
    requires var end := Run(EMPTY, steps); t < |end.tickets| && Live(end.tickets[t]) && ClearBefore(end, t)
    ensures var end := Run(EMPTY, steps);
      || Enabled(end, Enter(t)) || Enabled(end, Ask(t)) || Enabled(end, TrySet(t)) || Enabled(end, GiveUp(t, false))
      || Enabled(end, Finish(t, true)) || Enabled(end, Leave(t))
  {
    var end := Run(EMPTY, steps);
    RunKeepsInv(EMPTY, steps);
    assert ChainOk(end, t);
  }

  predicate WithinLease(s: State, t: nat) {
    && t < |s.tickets| && s.tickets[t].phase.Running?
    && s.tickets[t].phase.lease.Some? && s.now < s.tickets[t].phase.lease.value
  }

  /** Across processes, at most one caller of an account runs within its lease. */
  lemma DistributedExclusion(steps: seq<Step>, i: nat, j: nat)
    requires ValidRun(EMPTY, steps)
    requires var end := Run(EMPTY, steps);
      WithinLease(end, i) && WithinLease(end, j) && end.tickets[i].account == end.tickets[j].account
    ensures i == j
  {
    var end := Run(EMPTY, steps);
    RunKeepsInv(EMPTY, steps);
    assert LeaseOk(end, i) && LeaseOk(end, j);
  }

  /** No step of anybody else takes the token from a caller within its lease. */
  lemma OthersNeverTakeTheToken(steps: seq<Step>, step: Step, t: nat)
    requires ValidRun(EMPTY, steps)
    requires Enabled(Run(EMPTY, steps), step) && WithinLease(Run(EMPTY, steps), t)
    requires step != Finish(t, true) && step != Finish(t, false)
    ensures var after := Next(Run(EMPTY, steps), step);
      after.now < Run(EMPTY, steps).tickets[t].phase.lease.value ==>
        WithinLease(after, t) && after.tickets[t].account in after.tokens
        && after.tokens[after.tickets[t].account].holder == t
  {
    var end := Run(EMPTY, steps);
    RunKeepsInv(EMPTY, steps);
    StepKeepsInv(end, step);
    assert LeaseOk(end, t) && LeaseOk(Next(end, step), t);
  }

  // ---------------------------------------------------------------- what a release does to the token

  /**
   * A release that reaches Redis within the lease frees the account: no token is left, and a SET that anybody has sent
   * for it is granted at once.
   */
  lemma ReleaseFreesTheAccount(steps: seq<Step>, t: nat, u: nat)
    requires ValidRun(EMPTY, steps) && WithinLease(Run(EMPTY, steps), t)
    requires var end := Run(EMPTY, steps);
      && u < |end.tickets| && end.tickets[u].account == end.tickets[t].account
      && end.tickets[u].phase.Acquiring? && end.tickets[u].phase.asked
    ensures var end, account := Run(EMPTY, steps), Run(EMPTY, steps).tickets[t].account;
      && Enabled(end, Finish(t, true))
      && var freed := Next(end, Finish(t, true));
         && account !in freed.tokens && freed.now == end.now
         && Enabled(freed, TrySet(u))
         && var granted := Next(freed, TrySet(u));
            && granted.tickets[u].phase == Running(Some(end.now + 120_000))
            && granted.tokens == freed.tokens[account := Token(u, end.now + 120_000)]
  {
    RunKeepsInv(EMPTY, steps);
    assert LeaseOk(Run(EMPTY, steps), t);
  }

  /** A release that does not reach Redis, or comes after somebody else has taken the token, leaves every token alone. */
  lemma ReleaseLeavesTokensIff(steps: seq<Step>, t: nat, reached: bool)
    requires ValidRun(EMPTY, steps)
    requires var end := Run(EMPTY, steps); t < |end.tickets| && end.tickets[t].phase.Running?
    ensures var end, account := Run(EMPTY, steps), Run(EMPTY, steps).tickets[t].account;
      var after := Next(end, Finish(t, reached));
      && (after.tokens == end.tokens <==>
            !(reached && end.tickets[t].phase.lease.Some? && end.now < end.tickets[t].phase.lease.value))
      && forall other :: other != account ==>
           (other in after.tokens <==> other in end.tokens)
           && (other in end.tokens ==> after.tokens[other] == end.tokens[other])
  {
    var end := Run(EMPTY, steps);
    RunKeepsInv(EMPTY, steps);
    assert LeaseOk(end, t);
    assert end.tickets[t].account in end.tokens ==> end.tokens - {end.tickets[t].account} != end.tokens;
  }

  /** The token of a caller that has finished stays until it expires, whatever anybody does. */
  lemma {:induction false} LostReleaseHoldsUntilExpiry(s: State, steps: seq<Step>, t: nat, account: Account, expiresAt: int)
    requires ValidRun(s, steps) && t < |s.tickets| && (s.tickets[t].phase.Leaving? || s.tickets[t].phase.Released?)
    requires account in s.tokens && s.tokens[account] == Token(t, expiresAt)
    ensures var end := Run(s, steps);
      end.now < expiresAt ==> account in end.tokens && end.tokens[account] == Token(t, expiresAt)
    decreases |steps|
  {
    if steps != [] {
      var next := Next(s, steps[0]);
      TimeOnlyGrows(next, steps[1..]);
      if Run(s, steps).now < expiresAt {
        assert next.tokens[account] == Token(t, expiresAt);
        LostReleaseHoldsUntilExpiry(next, steps[1..], t, account, expiresAt);
      }
    }
  }

  lemma {:induction false} TimeOnlyGrows(s: State, steps: seq<Step>)
    requires ValidRun(s, steps)
    ensures s.now <= Run(s, steps).now
    decreases |steps|
  {
    if steps != [] {
      TimeOnlyGrows(Next(s, steps[0]), steps[1..]);
    }
  }

  /**
   * Exclusion ends exactly with the lease: while an operation runs, another process can set the token if and
   * only if the lease has run out and nobody else has set it since.
   */
  lemma OverrunAdmitsAnotherIff(steps: seq<Step>, t: nat, u: nat)
    requires ValidRun(EMPTY, steps)
    requires var end := Run(EMPTY, steps);
      && t < |end.tickets| && u < |end.tickets| && end.tickets[t].account == end.tickets[u].account
      && end.tickets[t].phase.Running? && end.tickets[t].redis && Enabled(end, TrySet(u))
      && (TokenLive(end, end.tickets[t].account) ==> end.tokens[end.tickets[t].account].holder == t)
    ensures var end := Run(EMPTY, steps);
      var after := Next(end, TrySet(u));
      (after.tickets[t].phase.Running? && after.tickets[u].phase.Running? <==> !WithinLease(end, t))
  {
    var end := Run(EMPTY, steps);
    RunKeepsInv(EMPTY, steps);
    assert LeaseOk(end, t);
  }
}
