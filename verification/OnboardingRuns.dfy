/** What holds over every run of messages and queued jobs, of any phones at any times. */
module OnboardingRuns {
  import opened Prelude
  import opened Onboarding
  import RateLimiter

  function Next(s: State, e: Event): State {
    match e
    case Message(_, _, _, _, _) => Handle(s, e)
    case Job(p, at) => Work(s, p, at)
  }

  function Run(s: State, events: seq<Event>): State
    decreases |events|
  {
    if events == [] then s else Run(Next(s, events[0]), events[1..])
  }

  // ---------------------------------------------------------------- counting facts

  datatype Kind = AnIssue | AWrongTry | AnAcceptance | ACreation | AnEnqueueing | AnExecution | AStaleReset

  function KindOf(f: Fact): Kind {
    match f
    case Issued(_, _, _) => AnIssue
    case WrongTry(_) => AWrongTry
    case Accepted(_, _, _) => AnAcceptance
    case Created(_, _) => ACreation
    case Enqueued(_) => AnEnqueueing
    case Executed(_) => AnExecution
    case StaleReset(_) => AStaleReset
  }

  function Count(log: seq<Fact>, p: Phone, k: Kind): nat {
    if log == [] then 0
    else Count(log[..|log| - 1], p, k)
         + if log[|log| - 1].phone == p && KindOf(log[|log| - 1]) == k then 1 else 0
  }

  lemma CountAppend(log: seq<Fact>, f: Fact, p: Phone, k: Kind)
    ensures Count(log + [f], p, k) == Count(log, p, k) + if f.phone == p && KindOf(f) == k then 1 else 0
  {
    assert (log + [f])[..|log|] == log;
  }

  /** A step adds at most one fact, about the phone it is for. */
  lemma StepAddsAtMostOne(s: State, e: Event)
    ensures var log := Next(s, e).log;
      log == s.log || (|log| == |s.log| + 1 && log == s.log + [log[|s.log|]] && log[|s.log|].phone == e.phone)
  {
  }

  lemma CountStep(s: State, e: Event, p: Phone, k: Kind)
    ensures var log := Next(s, e).log;
      Count(log, p, k) == Count(s.log, p, k)
        + if |log| > |s.log| && log[|s.log|].phone == p && KindOf(log[|s.log|]) == k then 1 else 0
  {
    var log := Next(s, e).log;
    StepAddsAtMostOne(s, e);
    if |log| > |s.log| {
      CountAppend(s.log, log[|s.log|], p, k);
    }
  }

  function StateOf(s: State, p: Phone): UserState {
    if p in s.sessions then s.sessions[p].state else Unverified
  }

  predicate SameSession(a: Sessions, b: Sessions, p: Phone) {
    (p in a <==> p in b) && (p in a ==> a[p] == b[p])
  }

  lemma SessionsOfOthers(sessions: Sessions, p: Phone, q: Phone, state: UserState, now: int)
    requires p != q
    ensures SameSession(sessions, Touch(sessions, q, now), p)
    ensures SameSession(sessions, SetState(sessions, q, state, now), p)
  {
  }

  /** A step looks at the phone's session, and then possibly gives it another state. */
  lemma SessionsAfterStep(s: State, e: Event) returns (state: UserState)
    ensures var touched := Touch(s.sessions, e.phone, e.at);
      Next(s, e).sessions == touched || Next(s, e).sessions == SetState(touched, e.phone, state, e.at)
  {
    var touched := Touch(s.sessions, e.phone, e.at);
    state := match touched[e.phone].state
      case Unverified => AwaitingOtp
      case AwaitingOtp => AwaitingConsent
      case AwaitingConsent => if e.Message? && Agrees(e.text) then Verified else Unverified
      case Verified => Unverified;
  }

  lemma OthersKeepRecords(s: State, e: Event, p: Phone)
    requires e.phone != p
    ensures var t := Next(s, e);
      && (p in t.otps <==> p in s.otps) && (p in s.otps ==> t.otps[p] == s.otps[p])
      && (p in t.wallets <==> p in s.wallets) && (p in s.wallets ==> t.wallets[p] == s.wallets[p])
  {
  }

  /** What a phone has on file does not depend on other phones' messages. */
  lemma OthersLeaveItAlone(s: State, e: Event, p: Phone, k: Kind)
    requires e.phone != p
    ensures var t := Next(s, e);
      && SameSession(s.sessions, t.sessions, p)
      && (p in t.otps <==> p in s.otps) && (p in s.otps ==> t.otps[p] == s.otps[p])
      && (p in t.wallets <==> p in s.wallets) && (p in s.wallets ==> t.wallets[p] == s.wallets[p])
      && Count(t.log, p, k) == Count(s.log, p, k)
  {
    CountStep(s, e, p, k);
    OthersKeepRecords(s, e, p);
    OthersKeepSession(s, e, p);
  }

  lemma OthersKeepSession(s: State, e: Event, p: Phone)
    requires e.phone != p
    ensures SameSession(s.sessions, Next(s, e).sessions, p)
  {
    var state := SessionsAfterStep(s, e);
    SessionsOfOthers(s.sessions, p, e.phone, state, e.at);
    SessionsOfOthers(Touch(s.sessions, e.phone, e.at), p, e.phone, state, e.at);
  }

  // ---------------------------------------------------------------- no wallet without a code

  /** A code on file has not been accepted yet; a phone that may agree has an acceptance not spent on a wallet. */
  ghost predicate Earned(s: State, p: Phone) {
    && Count(s.log, p, AnAcceptance) + (if p in s.otps then 1 else 0) <= Count(s.log, p, AnIssue)
    && Count(s.log, p, ACreation) + (if StateOf(s, p).AwaitingConsent? then 1 else 0) <= Count(s.log, p, AnAcceptance)
    && (StateOf(s, p).Verified? ==> p in s.wallets)
    && Count(s.log, p, AStaleReset) == 0
  }

  lemma StepKeepsEarned(s: State, e: Event, p: Phone)
    requires Earned(s, p)
    ensures Earned(Next(s, e), p)
  {
    if e.phone == p {
      OwnStepKeepsEarned(s, e);
    } else {
      OthersLeaveItAlone(s, e, p, AnIssue);
      OthersLeaveItAlone(s, e, p, AnAcceptance);
      OthersLeaveItAlone(s, e, p, ACreation);
      OthersLeaveItAlone(s, e, p, AStaleReset);
    }
  }

  lemma OwnStepKeepsEarned(s: State, e: Event)
    requires Earned(s, e.phone)
    ensures Earned(Next(s, e), e.phone)
  {
    var p, t := e.phone, Next(s, e);
    CountStep(s, e, p, AnIssue);
    CountStep(s, e, p, AnAcceptance);
    CountStep(s, e, p, ACreation);
    CountStep(s, e, p, AStaleReset);
    if t.log == s.log {
      OwnQuietStep(s, e);
    } else {
      OwnLoudStep(s, e);
    }
  }

  /** A step that records nothing leaves the wallets alone, and cannot move a phone forward. */
  lemma OwnQuietStep(s: State, e: Event)
    requires Next(s, e).log == s.log
    ensures var p, t := e.phone, Next(s, e);
      && t.wallets == s.wallets
      && (p in t.otps ==> p in s.otps)
      && (StateOf(t, p) == StateOf(s, p) || StateOf(t, p).Unverified?)
  {
  }

  /** What each fact says about the step that recorded it. */
  lemma OwnLoudStep(s: State, e: Event)
    requires Next(s, e).log != s.log
    ensures var p, t := e.phone, Next(s, e);
      && |t.log| == |s.log| + 1
      && match t.log[|s.log|] {
           case Issued(_, _, _) => StateOf(t, p).AwaitingOtp? && t.wallets == s.wallets
           case WrongTry(_) => StateOf(t, p).AwaitingOtp? && p in s.otps && t.wallets == s.wallets
           case Accepted(_, _, _) =>
             && StateOf(t, p).AwaitingConsent? && StateOf(s, p).AwaitingOtp?
             && p in s.otps && p !in t.otps && t.wallets == s.wallets
           case Created(_, _) =>
             StateOf(t, p).Verified? && StateOf(s, p).AwaitingConsent? && p in t.wallets && t.otps == s.otps
           case Enqueued(_) =>
             StateOf(t, p).Verified? && StateOf(s, p).Verified? && t.otps == s.otps && t.wallets == s.wallets
           case Executed(_) =>
             StateOf(t, p).Verified? && StateOf(s, p).Verified? && t.otps == s.otps && t.wallets == s.wallets
           case StaleReset(_) => StateOf(s, p).Verified? && p !in s.wallets
         }
  {
  }

  lemma {:induction false} RunKeepsEarned(s: State, events: seq<Event>, p: Phone)
    requires Earned(s, p)
    ensures Earned(Run(s, events), p)
    decreases |events|
  {
    if events != [] {
      StepKeepsEarned(s, events[0], p);
      RunKeepsEarned(Next(s, events[0]), events[1..], p);
    }
  }

  /** Wallets are created no more often than codes are accepted, and codes are accepted no more often than issued. */
  lemma WalletsNeedCodes(events: seq<Event>, p: Phone)
    ensures var log := Run(EMPTY, events).log;
      Count(log, p, ACreation) <= Count(log, p, AnAcceptance) <= Count(log, p, AnIssue)
  {
    RunKeepsEarned(EMPTY, events, p);
  }

  /** A verified session always has a wallet, so the branch for a stale session is never taken. */
  lemma VerifiedHasWallet(events: seq<Event>, p: Phone)
    ensures var s := Run(EMPTY, events);
      (StateOf(s, p).Verified? ==> p in s.wallets) && Count(s.log, p, AStaleReset) == 0
  {
    RunKeepsEarned(EMPTY, events, p);
  }

  // ---------------------------------------------------------------- which code is accepted

  /** The last code issued to a phone and not accepted since, with the wrong tries made on it. */
  datatype Pending = Pending(code: string, issuedAt: int, wrongTries: nat)

  function Track(pending: Option<Pending>, f: Fact, p: Phone): Option<Pending> {
    if f.phone != p then pending
    else
      match f
      case Issued(_, code, at) => Some(Pending(code, at, 0))
      case WrongTry(_) =>
        if pending.Some? then Some(pending.value.(wrongTries := pending.value.wrongTries + 1)) else None
      case Accepted(_, _, _) => None
      case _ => pending
  }

  function PendingAfter(log: seq<Fact>, p: Phone): Option<Pending> {
    if log == [] then None else Track(PendingAfter(log[..|log| - 1], p), log[|log| - 1], p)
  }

  /** The code accepted is the last one issued, in time, not used before, and after fewer than three wrong tries. */
  predicate RightlyAccepted(pending: Option<Pending>, f: Fact)
    requires f.Accepted?
  {
    && pending.Some?
    && pending.value.code == f.code
    && f.at <= pending.value.issuedAt + OTP_TTL_MS
    && pending.value.wrongTries < MAX_ATTEMPTS
  }

  ghost predicate AllRightlyAccepted(log: seq<Fact>, p: Phone) {
    forall i :: 0 <= i < |log| && log[i].Accepted? && log[i].phone == p ==>
      RightlyAccepted(PendingAfter(log[..i], p), log[i])
  }

  /** The record on file is the pending code. */
  ghost predicate OnFile(s: State, p: Phone) {
    && (p in s.otps ==>
          PendingAfter(s.log, p) ==
          Some(Pending(s.otps[p].code, s.otps[p].expiresAt - OTP_TTL_MS, s.otps[p].attempts)))
    && AllRightlyAccepted(s.log, p)
  }

  /** What a phone's own message does to the record on file. */
  lemma FileAfterOwnStep(s: State, e: Event)
    ensures var p, t := e.phone, Next(s, e);
      if t.log == s.log then p in t.otps ==> p in s.otps && t.otps[p] == s.otps[p]
      else
        match t.log[|s.log|] {
          case Issued(_, code, at) => p in t.otps && t.otps[p] == Otp(code, at + OTP_TTL_MS, 0)
          case WrongTry(_) => p in s.otps && p in t.otps && t.otps[p] == s.otps[p].(attempts := s.otps[p].attempts + 1)
          case Accepted(_, code, at) =>
            && p in s.otps && p !in t.otps
            && s.otps[p].code == code && at <= s.otps[p].expiresAt && s.otps[p].attempts < MAX_ATTEMPTS
          case _ => t.otps == s.otps
        }
  {
  }

  lemma OneMoreFact(log: seq<Fact>, f: Fact, p: Phone)
    requires AllRightlyAccepted(log, p)
    requires f.Accepted? && f.phone == p ==> RightlyAccepted(PendingAfter(log, p), f)
    ensures AllRightlyAccepted(log + [f], p)
    ensures PendingAfter(log + [f], p) == Track(PendingAfter(log, p), f, p)
  {
    assert (log + [f])[..|log|] == log;
    forall i | 0 <= i < |log|
      ensures (log + [f])[..i] == log[..i]
    {
    }
  }

  lemma StepKeepsOnFile(s: State, e: Event, p: Phone)
    requires OnFile(s, p)
    ensures OnFile(Next(s, e), p)
  {
    var t := Next(s, e);
    StepAddsAtMostOne(s, e);
    if e.phone == p {
      FileAfterOwnStep(s, e);
    } else {
      OthersLeaveItAlone(s, e, p, AnIssue);
    }
    if t.log != s.log {
      OneMoreFact(s.log, t.log[|s.log|], p);
    }
  }

  lemma {:induction false} RunKeepsOnFile(s: State, events: seq<Event>, p: Phone)
    requires OnFile(s, p)
    ensures OnFile(Run(s, events), p)
    decreases |events|
  {
    if events != [] {
      StepKeepsOnFile(s, events[0], p);
      RunKeepsOnFile(Next(s, events[0]), events[1..], p);
    }
  }

  /**
   * In every run, each acceptance is of the code last issued to that phone, within five minutes, once, and never
   * after three wrong tries on it.
   */
  lemma AcceptedCodesAreLive(events: seq<Event>, p: Phone)
    ensures AllRightlyAccepted(Run(EMPTY, events).log, p)
  {
    RunKeepsOnFile(EMPTY, events, p);
  }

  // ---------------------------------------------------------------- idle sessions

  /** The phone has yet to prove itself. */
  predicate Dormant(s: State, p: Phone) {
    StateOf(s, p).Unverified? || StateOf(s, p).AwaitingOtp?
  }

  lemma StepKeepsDormant(s: State, e: Event, p: Phone)
    requires Dormant(s, p)
    requires Count(Next(s, e).log, p, AnAcceptance) == Count(s.log, p, AnAcceptance)
    ensures Dormant(Next(s, e), p)
    ensures Count(Next(s, e).log, p, AnExecution) == Count(s.log, p, AnExecution)
  {
    CountStep(s, e, p, AnAcceptance);
    CountStep(s, e, p, AnExecution);
    if e.phone != p {
      OthersLeaveItAlone(s, e, p, AnExecution);
    } else if Next(s, e).log == s.log {
      OwnQuietStep(s, e);
    } else {
      OwnLoudStep(s, e);
    }
  }

  lemma {:induction false} CountsOnlyGrow(s: State, events: seq<Event>, p: Phone, k: Kind)
    ensures Count(s.log, p, k) <= Count(Run(s, events).log, p, k)
    decreases |events|
  {
    if events != [] {
      CountStep(s, events[0], p, k);
      CountsOnlyGrow(Next(s, events[0]), events[1..], p, k);
    }
  }

  /** Without a new acceptance, a phone that has yet to prove itself gets no intent executed. */
  lemma {:induction false} DormantExecutesNothing(s: State, events: seq<Event>, p: Phone)
    requires Dormant(s, p)
    requires Count(Run(s, events).log, p, AnAcceptance) == Count(s.log, p, AnAcceptance)
    ensures Count(Run(s, events).log, p, AnExecution) == Count(s.log, p, AnExecution)
    decreases |events|
  {
    if events != [] {
      var next := Next(s, events[0]);
      CountStep(s, events[0], p, AnAcceptance);
      CountsOnlyGrow(next, events[1..], p, AnAcceptance);
      StepKeepsDormant(s, events[0], p);
      DormantExecutesNothing(next, events[1..], p);
    }
  }

  predicate SilentUntil(events: seq<Event>, p: Phone, at: int) {
    forall i :: 0 <= i < |events| && events[i].phone == p ==> at < events[i].at
  }

  /**
   * A session left idle for more than a quarter of an hour, in whatever state, executes no intent until a new code
   * has been accepted, even for jobs that were queued before.
   */
  lemma {:induction false} IdleSessionExecutesNothing(s: State, events: seq<Event>, p: Phone)
    requires p in s.sessions && SilentUntil(events, p, s.sessions[p].lastMessageTime + SESSION_TIMEOUT_MS)
    requires Count(Run(s, events).log, p, AnAcceptance) == Count(s.log, p, AnAcceptance)
    ensures Count(Run(s, events).log, p, AnExecution) == Count(s.log, p, AnExecution)
    decreases |events|
  {
    if events != [] {
      var e, rest := events[0], events[1..];
      var next := Next(s, e);
      CountsOnlyGrow(next, rest, p, AnAcceptance);
      CountStep(s, e, p, AnAcceptance);
      if e.phone == p {
        CountStep(s, e, p, AnExecution);
        DormantExecutesNothing(next, rest, p);
      } else {
        OthersLeaveItAlone(s, e, p, AnExecution);
        OthersLeaveItAlone(s, e, p, AnAcceptance);
        IdleSessionExecutesNothing(next, rest, p);
      }
    }
  }

  // ---------------------------------------------------------------- dead ends

  /** Messages and jobs of the phone follow each other within the session timeout. */
  predicate NeverIdle(events: seq<Event>, p: Phone, last: int)
    decreases |events|
  {
    events != [] ==>
      if events[0].phone == p
      then events[0].at - last <= SESSION_TIMEOUT_MS && NeverIdle(events[1..], p, events[0].at)
      else NeverIdle(events[1..], p, last)
  }

  lemma DeadCodeStep(s: State, e: Event)
    requires e.phone in s.sessions && s.sessions[e.phone].state.AwaitingOtp? && e.phone !in s.otps
    requires !TimedOut(s.sessions[e.phone], e.at)
    ensures var t := Next(s, e);
      && t.otps == s.otps && t.log == s.log
      && e.phone in t.sessions && t.sessions[e.phone].state.AwaitingOtp? && t.sessions[e.phone].lastMessageTime == e.at
  {
  }

  /**
   * Once its code is gone (expired, or tried wrong three times and asked once more), a phone that goes on writing
   * gets no new code whatever it sends, although it is told to request one: only silence helps.
   */
  lemma {:induction false} DeadCodeIsADeadEnd(s: State, events: seq<Event>, p: Phone)
    requires p in s.sessions && s.sessions[p].state.AwaitingOtp? && p !in s.otps
    requires NeverIdle(events, p, s.sessions[p].lastMessageTime)
    ensures var end := Run(s, events);
      && p in end.sessions && end.sessions[p].state.AwaitingOtp? && p !in end.otps
      && Count(end.log, p, AnIssue) == Count(s.log, p, AnIssue)
    decreases |events|
  {
    if events != [] {
      if events[0].phone != p {
        OthersLeaveItAlone(s, events[0], p, AnIssue);
      } else {
        DeadCodeStep(s, events[0]);
      }
      DeadCodeIsADeadEnd(Next(s, events[0]), events[1..], p);
    }
  }

  // ---------------------------------------------------------------- wallets that get replaced

  /** A step gives a phone another wallet exactly when the phone agrees again in a session that awaits its consent. */
  lemma WalletReplacedIff(s: State, e: Event, p: Phone)
    requires p in s.wallets
    ensures p in Next(s, e).wallets
    ensures Next(s, e).wallets[p] != s.wallets[p] <==>
      && e.Message? && e.phone == p && Agrees(e.text) && e.key != s.wallets[p]
      && p in s.sessions && !TimedOut(s.sessions[p], e.at) && s.sessions[p].state.AwaitingConsent?
  {
  }

  predicate IsCode(code: string) {
    |code| == 6 && forall i :: 0 <= i < |code| ==> '0' <= code[i] <= '9'
  }

  lemma {:induction false} DigitsOfDigits(text: string)
    requires forall i :: 0 <= i < |text| ==> '0' <= text[i] <= '9'
    ensures Digits(text) == text
  {
    if text != "" {
      DigitsOfDigits(text[1..]);
    }
  }

  /** Greeting, entering the code and agreeing, all at once. */
  function SignUp(p: Phone, at: int, code: string, key: Key): seq<Event> {
    [Message(p, "hi", at, code, key), Message(p, code, at, code, key), Message(p, "agree", at, code, key)]
  }

  lemma SignUpGivesWallet(s: State, p: Phone, at: int, code: string, key: Key)
    requires IsCode(code)
    requires p !in s.sessions || TimedOut(s.sessions[p], at) || s.sessions[p].state.Unverified?
    ensures var end := Run(s, SignUp(p, at, code, key));
      && end.wallets == s.wallets[p := key]
      && p in end.sessions && end.sessions[p].state.Verified? && end.sessions[p].lastMessageTime == at
  {
    var events := SignUp(p, at, code, key);
    var a := GreetingGivesCode(s, p, at, code, key);
    var b := CodeLeadsToConsent(a, p, at, code, key);
    var c := AgreeingGivesWallet(b, p, at, code, key);
    assert events[1..][1..] == [events[2]];
    assert Run(b, [events[2]]) == Run(c, []);
  }

  lemma GreetingGivesCode(s: State, p: Phone, at: int, code: string, key: Key) returns (t: State)
    requires p !in s.sessions || TimedOut(s.sessions[p], at) || s.sessions[p].state.Unverified?
    ensures t == Next(s, Message(p, "hi", at, code, key)) && t.wallets == s.wallets
    ensures p in t.sessions && t.sessions[p].state.AwaitingOtp? && t.sessions[p].lastMessageTime == at
    ensures p in t.otps && t.otps[p] == Otp(code, at + OTP_TTL_MS, 0)
  {
    t := Next(s, Message(p, "hi", at, code, key));
  }

  lemma CodeLeadsToConsent(s: State, p: Phone, at: int, code: string, key: Key) returns (t: State)
    requires IsCode(code) && p in s.sessions && s.sessions[p].state.AwaitingOtp? && s.sessions[p].lastMessageTime == at
    requires p in s.otps && s.otps[p] == Otp(code, at + OTP_TTL_MS, 0)
    ensures t == Next(s, Message(p, code, at, code, key)) && t.wallets == s.wallets
    ensures p in t.sessions && t.sessions[p].state.AwaitingConsent? && t.sessions[p].lastMessageTime == at
  {
    DigitsOfDigits(code);
    t := Next(s, Message(p, code, at, code, key));
  }

  lemma AgreeingGivesWallet(s: State, p: Phone, at: int, code: string, key: Key) returns (t: State)
    requires p in s.sessions && s.sessions[p].state.AwaitingConsent? && s.sessions[p].lastMessageTime == at
    ensures t == Next(s, Message(p, "agree", at, code, key)) && t.wallets == s.wallets[p := key]
    ensures p in t.sessions && t.sessions[p].state.Verified? && t.sessions[p].lastMessageTime == at
  {
    t := Next(s, Message(p, "agree", at, code, key));
  }

  /**
   * Whatever else has happened, a user whose session has been idle for more than a quarter of an hour and who signs in
   * again gets another wallet in place of the one on file, and nobody else's changes.
   */
  lemma ReturningUserGetsAnotherWallet(s: State, p: Phone, at: int, code: string, key: Key)
    requires p in s.wallets && p in s.sessions && TimedOut(s.sessions[p], at)
    requires IsCode(code) && key != s.wallets[p]
    ensures var end := Run(s, SignUp(p, at, code, key));
      && p in end.wallets && end.wallets[p] == key != s.wallets[p]
      && forall q :: q != p ==>
           (q in end.wallets <==> q in s.wallets) && (q in s.wallets ==> end.wallets[q] == s.wallets[q])
  {
    SignUpGivesWallet(s, p, at, code, key);
  }

  // ---------------------------------------------------------------- two limiters, one decision

  /** The session's counter stands for a limiter entry: same window, same count up to the maximum. */
  predicate Mirrors(sessions: Sessions, t: RateLimiter.Table, p: Phone) {
    && (p in sessions <==> p in t)
    && (p in t ==>
          && sessions[p].windowStart == t[p].windowStart <= sessions[p].lastMessageTime
          && 1 <= sessions[p].messageCount && 1 <= t[p].count
          && Min(sessions[p].messageCount, RATE_LIMIT_MAX) == t[p].count)
  }

  lemma OneMessageAgrees(sessions: Sessions, t: RateLimiter.Table, q: Phone, now: int, p: Phone)
    requires Mirrors(sessions, t, p) && Mirrors(sessions, t, q)
    requires forall x :: x in sessions ==> sessions[x].lastMessageTime <= now
    ensures var a, b := CheckRate(sessions, q, now), RateLimiter.Check(t, q, now, RATE_LIMIT_MAX);
      && a.allowed == b.allowed && Mirrors(a.sessions, b.table, p)
      && forall x :: x in a.sessions ==> a.sessions[x].lastMessageTime <= now
  {
    SessionsOfRate(sessions, q, now);
  }

  lemma SessionsOfRate(sessions: Sessions, q: Phone, now: int)
    ensures var after := CheckRate(sessions, q, now).sessions;
      && q in after && after[q].lastMessageTime == now
      && forall x :: x != q ==> SameSession(sessions, after, x)
  {
  }

  /** Which messages the session's limiter lets through, when nothing else touches the sessions. */
  function AllowedBySession(sessions: Sessions, messages: seq<RateLimiter.Message>): seq<bool>
    decreases |messages|
  {
    if messages == [] then []
    else
      var v := CheckRate(sessions, messages[0].key, messages[0].at);
      [v.allowed] + AllowedBySession(v.sessions, messages[1..])
  }

  /** Which messages the webhook's fixed window lets through. */
  function AllowedByWindow(t: RateLimiter.Table, messages: seq<RateLimiter.Message>): seq<bool>
    decreases |messages|
  {
    if messages == [] then []
    else
      var v := RateLimiter.Check(t, messages[0].key, messages[0].at, RATE_LIMIT_MAX);
      [v.allowed] + AllowedByWindow(v.table, messages[1..])
  }

  lemma {:induction false} LimitersAgreeFrom(
    sessions: Sessions, t: RateLimiter.Table, messages: seq<RateLimiter.Message>)
    requires RateLimiter.Ordered(messages) && forall p :: Mirrors(sessions, t, p)
    requires messages != [] ==> forall x :: x in sessions ==> sessions[x].lastMessageTime <= messages[0].at
    ensures AllowedBySession(sessions, messages) == AllowedByWindow(t, messages)
    decreases |messages|
  {
    if messages != [] {
      var m, rest := messages[0], messages[1..];
      var a, b := CheckRate(sessions, m.key, m.at).sessions, RateLimiter.Check(t, m.key, m.at, RATE_LIMIT_MAX).table;
      forall p
        ensures Mirrors(a, b, p)
      {
        OneMessageAgrees(sessions, t, m.key, m.at, p);
      }
      OneMessageAgrees(sessions, t, m.key, m.at, m.key);
      LimitersAgreeFrom(a, b, rest);
    }
  }

  /**
   * Used on its own, the session's limiter lets through exactly the messages that the webhook's fixed window lets
   * through, though it also counts the messages it rejects and starts over with a session that timed out.
   */
  lemma LimitersAgree(messages: seq<RateLimiter.Message>)
    requires RateLimiter.Ordered(messages)
    ensures AllowedBySession(map[], messages) == AllowedByWindow(map[], messages)
  {
    LimitersAgreeFrom(map[], map[], messages);
  }
}
