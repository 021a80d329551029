/** WhatsApp onboarding: sessions, one-time codes, custodial wallets and the webhook that drives them. */
module Onboarding {
  import opened Prelude
  import RateLimiter

  type Phone = string   // the hash of a phone number

  datatype UserState = Unverified | AwaitingOtp | AwaitingConsent | Verified

  const SESSION_TIMEOUT_MS: int := 900_000
  const RATE_LIMIT_MAX: int := 10
  const OTP_TTL_MS: int := 300_000
  const MAX_ATTEMPTS: nat := 3

  // ---------------------------------------------------------------- sessions

  datatype Session = Session(state: UserState, lastMessageTime: int, messageCount: int, windowStart: int)

  type Sessions = map<Phone, Session>

  predicate TimedOut(s: Session, now: int) { now - s.lastMessageTime > SESSION_TIMEOUT_MS }

  /** Every look at a session counts as activity; one left idle for too long starts over. */
  function Touch(sessions: Sessions, p: Phone, now: int): (touched: Sessions)
    ensures p in touched
  {
    if p !in sessions then sessions[p := Session(Unverified, now, 0, now)]
    else if TimedOut(sessions[p], now) then sessions[p := Session(Unverified, now, 0, now)]
    else sessions[p := sessions[p].(lastMessageTime := now)]
  }

  function SetState(sessions: Sessions, p: Phone, state: UserState, now: int): Sessions {
    var touched := Touch(sessions, p, now);
    touched[p := touched[p].(state := state)]
  }

  datatype RateVerdict = RateVerdict(sessions: Sessions, allowed: bool)

  function CheckRate(sessions: Sessions, p: Phone, now: int): RateVerdict {
    var touched := Touch(sessions, p, now);
    var s := touched[p];
    if now - s.windowStart > RateLimiter.WINDOW_MS
    then RateVerdict(touched[p := s.(windowStart := now, messageCount := 1)], true)
    else RateVerdict(touched[p := s.(messageCount := s.messageCount + 1)], s.messageCount + 1 <= RATE_LIMIT_MAX)
  }

  class StateManager {
    var sessions: Sessions

    constructor ()
      ensures sessions == map[]
    {
      sessions := map[];
    }

    method GetSession(p: Phone, now: int) returns (s: Session)
      modifies this
      ensures sessions == Touch(old(sessions), p, now) && s == sessions[p]
      ensures s ==
        if p in old(sessions) && now <= old(sessions)[p].lastMessageTime + 900_000
        then old(sessions)[p].(lastMessageTime := now)
        else Session(Unverified, now, 0, now)
      ensures sessions == old(sessions)[p := s]
    {
      if p !in sessions {
        s := Session(Unverified, now, 0, now);
        sessions := sessions[p := s];
        return;
      }
      s := sessions[p];
      if now - s.lastMessageTime > SESSION_TIMEOUT_MS {
        s := Session(Unverified, s.lastMessageTime, 0, now);
      }
      s := s.(lastMessageTime := now);
      sessions := sessions[p := s];
    }

    method UpdateState(p: Phone, state: UserState, now: int)
      modifies this
      ensures sessions == SetState(old(sessions), p, state, now)
      ensures p in sessions && sessions[p].state == state && sessions[p].lastMessageTime == now
      ensures sessions == old(sessions)[p := sessions[p]]
    {
      var s := GetSession(p, now);
      sessions := sessions[p := s.(state := state)];
    }

    method CheckRateLimit(p: Phone, now: int) returns (allowed: bool)
      modifies this
      ensures RateVerdict(sessions, allowed) == CheckRate(old(sessions), p, now)
      ensures
        var t := old(sessions);
        var active := p in t && now <= t[p].lastMessageTime + 900_000;
        if active && t[p].windowStart + 60_000 < now then
          allowed && sessions == t[p := Session(t[p].state, now, 1, now)]
        else
          var s := if active then t[p] else Session(Unverified, now, 0, now);
          && (allowed <==> s.messageCount < 10)
          && sessions == t[p := Session(s.state, now, s.messageCount + 1, s.windowStart)]
    {
      var s := GetSession(p, now);
      if now - s.windowStart > RateLimiter.WINDOW_MS {
        sessions := sessions[p := s.(windowStart := now, messageCount := 1)];
        return true;
      }
      sessions := sessions[p := s.(messageCount := s.messageCount + 1)];
      return s.messageCount + 1 <= RATE_LIMIT_MAX;
    }
  }

  // ---------------------------------------------------------------- one-time codes

  datatype Otp = Otp(code: string, expiresAt: int, attempts: nat)

  type Otps = map<Phone, Otp>

  datatype Outcome = NoRecord | Expired | TooMany | Mismatch | Match

  datatype OtpVerdict = OtpVerdict(otps: Otps, outcome: Outcome)

  function Issue(otps: Otps, p: Phone, code: string, now: int): Otps {
    otps[p := Otp(code, now + OTP_TTL_MS, 0)]
  }

  function Verify(otps: Otps, p: Phone, input: string, now: int): OtpVerdict {
    if p !in otps then OtpVerdict(otps, NoRecord)
    else if now > otps[p].expiresAt then OtpVerdict(otps - {p}, Expired)
    else if otps[p].attempts >= MAX_ATTEMPTS then OtpVerdict(otps - {p}, TooMany)
    else if otps[p].code != input then OtpVerdict(otps[p := otps[p].(attempts := otps[p].attempts + 1)], Mismatch)
    else OtpVerdict(otps - {p}, Match)
  }

  class OtpService {
    var store: Otps

    constructor ()
      ensures store == map[]
    {
      store := map[];
    }

    method GenerateOTP(p: Phone, code: string, now: int)
      modifies this
      ensures store == Issue(old(store), p, code, now)
      ensures store == old(store)[p := Otp(code, now + 300_000, 0)]
    {
      store := store[p := Otp(code, now + OTP_TTL_MS, 0)];
    }

    method VerifyOTP(p: Phone, input: string, now: int) returns (outcome: Outcome)
      modifies this
      ensures OtpVerdict(store, outcome) == Verify(old(store), p, input, now)
      ensures p !in old(store) ==> outcome == NoRecord && store == old(store)
      ensures p in old(store) ==>
        var o := old(store)[p];
        && outcome == (
             if o.expiresAt < now then Expired
             else if o.attempts >= 3 then TooMany
             else if o.code == input then Match
             else Mismatch)
        && (outcome == Mismatch ==> store == old(store)[p := Otp(o.code, o.expiresAt, o.attempts + 1)])
        && (outcome != Mismatch ==> p !in store)
        && forall q :: q != p ==> (q in store <==> q in old(store)) && (q in store ==> store[q] == old(store)[q])
    {
      if p !in store {
        return NoRecord;
      }
      var record := store[p];
      if now > record.expiresAt {
        store := store - {p};
        return Expired;
      }
      if record.attempts >= MAX_ATTEMPTS {
        store := store - {p};
        return TooMany;
      }
      if record.code != input {
        store := store[p := record.(attempts := record.attempts + 1)];
        return Mismatch;
      }
      store := store - {p};
      return Match;
    }
  }

  // ---------------------------------------------------------------- wallets

  type Key = string   // a wallet's public key

  class WalletService {
    var wallets: map<Phone, Key>

    constructor ()
      ensures wallets == map[]
    {
      wallets := map[];
    }

    method CreateCustodialWallet(p: Phone, key: Key)
      modifies this
      ensures wallets == old(wallets)[p := key]
    {
      wallets := wallets[p := key];
    }

    method GetWallet(p: Phone) returns (key: Option<Key>)
      ensures key == if p in wallets then Some(wallets[p]) else None
    {
      key := if p in wallets then Some(wallets[p]) else None;
    }
  }

  // ---------------------------------------------------------------- the webhook

  /** What is on record about a phone. */
  datatype Fact =
    | Issued(phone: Phone, code: string, at: int)
    | WrongTry(phone: Phone)
    | Accepted(phone: Phone, code: string, at: int)
    | Created(phone: Phone, key: Key)
    | Enqueued(phone: Phone)
    | Executed(phone: Phone)
    | StaleReset(phone: Phone)

  datatype State = State(sessions: Sessions, otps: Otps, wallets: map<Phone, Key>, log: seq<Fact>)

  const EMPTY := State(map[], map[], map[], [])

  function Digits(text: string): string {
    if text == "" then ""
    else (if '0' <= text[0] <= '9' then [text[0]] else "") + Digits(text[1..])
  }

  lemma DigitsFirst(c: char, rest: string)
    ensures Digits([c] + rest) == (if '0' <= c <= '9' then [c] else "") + Digits(rest)
  {
    assert ([c] + rest)[1..] == rest;
  }

  /** Only the digits of a text matter, in their order. */
  lemma {:induction false} DigitsOfParts(a: string, b: string)
    ensures Digits(a + b) == Digits(a) + Digits(b)
    decreases |a|
  {
    if a == "" {
      assert a + b == b;
    } else {
      DigitsFirst(a[0], a[1..]);
      DigitsFirst(a[0], a[1..] + b);
      assert a == [a[0]] + a[1..];
      assert a + b == [a[0]] + (a[1..] + b);
      DigitsOfParts(a[1..], b);
    }
  }

  /** The text's six digits are the pending code, in time and after fewer than three wrong tries. */
  predicate RightCode(otps: Otps, p: Phone, text: string, now: int) {
    && |Digits(text)| == 6 && p in otps
    && otps[p].code == Digits(text) && now <= otps[p].expiresAt && otps[p].attempts < 3
  }

  predicate Greets(text: string) { text == "hi" || text == "hello" || text == "start" || text == "" }

  predicate Agrees(text: string) { text == "agree" || text == "yes" }

  predicate Declines(text: string) { text == "decline" || text == "no" }

  /** A message's text comes trimmed and in lower case; `code` and `key` are what the generators would draw. */
  datatype Event =
    | Message(phone: Phone, text: string, at: int, code: string, key: Key)
    | Job(phone: Phone, at: int)

  function WhenUnverified(s: State, p: Phone, text: string, now: int, code: string): State {
    if !Greets(text) then s
    else State(SetState(s.sessions, p, AwaitingOtp, now), Issue(s.otps, p, code, now), s.wallets,
               s.log + [Issued(p, code, now)])
  }

  function WhenAwaitingOtp(s: State, p: Phone, text: string, now: int): State {
    var digits := Digits(text);
    if |digits| != 6 then s
    else
      var v := Verify(s.otps, p, digits, now);
      match v.outcome
      case Match =>
        State(SetState(s.sessions, p, AwaitingConsent, now), v.otps, s.wallets, s.log + [Accepted(p, digits, now)])
      case Mismatch => s.(otps := v.otps, log := s.log + [WrongTry(p)])
      case _ => s.(otps := v.otps)
  }

  function WhenAwaitingConsent(s: State, p: Phone, text: string, now: int, key: Key): State {
    if Agrees(text) then
      State(SetState(s.sessions, p, Verified, now), s.otps, s.wallets[p := key], s.log + [Created(p, key)])
    else if Declines(text) then s.(sessions := SetState(s.sessions, p, Unverified, now))
    else s
  }

  function WhenVerified(s: State, p: Phone, now: int): State {
    if p in s.wallets then s.(log := s.log + [Enqueued(p)])
    else s.(sessions := SetState(s.sessions, p, Unverified, now), log := s.log + [StaleReset(p)])
  }

  function Handle(before: State, m: Event): State
    requires m.Message?
  {
    var s := before.(sessions := Touch(before.sessions, m.phone, m.at));
    match s.sessions[m.phone].state
    case Unverified => WhenUnverified(s, m.phone, m.text, m.at, m.code)
    case AwaitingOtp => WhenAwaitingOtp(s, m.phone, m.text, m.at)
    case AwaitingConsent => WhenAwaitingConsent(s, m.phone, m.text, m.at, m.key)
    case Verified => WhenVerified(s, m.phone, m.at)
  }

  /** How the phone's session stood when the message came: an idle or unknown one starts over. */
  function Stood(s: State, p: Phone, now: int): UserState {
    if p in s.sessions && now <= s.sessions[p].lastMessageTime + 900_000 then s.sessions[p].state else Unverified
  }

  /**
   * What a message does to its phone: a greeting asks for a code, the right code asks for consent, agreement gives a
   * wallet and declining starts over, a verified phone without a wallet starts over, and nothing else moves it on.
   */
  lemma MessageMovesThePhoneOn(before: State, m: Event)
    requires m.Message?
    ensures var p, was, after := m.phone, Stood(before, m.phone, m.at), Handle(before, m);
      var greets := m.text == "hi" || m.text == "hello" || m.text == "start" || m.text == "";
      var agrees, declines := m.text == "agree" || m.text == "yes", m.text == "decline" || m.text == "no";
      && p in after.sessions
      && after.sessions[p].state == (
           match was
           case Unverified => if greets then AwaitingOtp else was
           case AwaitingOtp => if RightCode(before.otps, p, m.text, m.at) then AwaitingConsent else was
           case AwaitingConsent => if agrees then Verified else if declines then Unverified else was
           case Verified => if p in before.wallets then was else Unverified)
      && after.wallets == (if was == AwaitingConsent && agrees then before.wallets[p := m.key] else before.wallets)
      && (was == Unverified && greets ==> after.otps == before.otps[p := Otp(m.code, m.at + 300_000, 0)])
      && (was == Verified && p in before.wallets <==> after.log == before.log + [Enqueued(p)])
  {
    var after, was := Handle(before, m), Stood(before, m.phone, m.at);
    if |after.log| > |before.log| {
      assert after.log[|before.log|].Enqueued? <==> was == Verified && m.phone in before.wallets;
    }
  }

  /** The queue's worker: the intent is executed if the session is still verified and there is a wallet. */
  function Work(before: State, p: Phone, now: int): State {
    var s := before.(sessions := Touch(before.sessions, p, now));
    if s.sessions[p].state.Verified? && p in s.wallets then s.(log := s.log + [Executed(p)]) else s
  }

  class Webhook {
    const stateManager: StateManager
    const otpService: OtpService
    const walletService: WalletService
    ghost var log: seq<Fact>

    constructor ()
      ensures View() == EMPTY && fresh(stateManager) && fresh(otpService) && fresh(walletService)
    {
      var sm := new StateManager();
      var os := new OtpService();
      var ws := new WalletService();
      stateManager, otpService, walletService, log := sm, os, ws, [];
    }

    ghost function View(): State
      reads this, stateManager, otpService, walletService
    {
      State(stateManager.sessions, otpService.store, walletService.wallets, log)
    }

    method HandleMessage(m: Event) returns (enqueued: bool)
      requires m.Message?
      modifies this, stateManager, otpService, walletService
      ensures View() == Handle(old(View()), m)
      ensures enqueued <==> log == old(log) + [Enqueued(m.phone)]
    {
      var session := stateManager.GetSession(m.phone, m.at);
      enqueued := false;
      match session.state
      case Unverified => Greet(m);
      case AwaitingOtp => CheckCode(m);
      case AwaitingConsent => Consent(m);
      case Verified => enqueued := Acknowledge(m);
    }

    method Greet(m: Event)
      requires m.Message?
      modifies this, stateManager, otpService
      ensures View() == WhenUnverified(old(View()), m.phone, m.text, m.at, m.code)
      ensures log != old(log) + [Enqueued(m.phone)]
    {
      if m.text == "hi" || m.text == "hello" || m.text == "start" || m.text == "" {
        otpService.GenerateOTP(m.phone, m.code, m.at);
        stateManager.UpdateState(m.phone, AwaitingOtp, m.at);
        log := log + [Issued(m.phone, m.code, m.at)];
        assert log[|log| - 1].Issued?;
      }
    }

    method CheckCode(m: Event)
      requires m.Message?
      modifies this, stateManager, otpService
      ensures View() == WhenAwaitingOtp(old(View()), m.phone, m.text, m.at)
      ensures log != old(log) + [Enqueued(m.phone)]
    {
      var digits := Digits(m.text);
      if |digits| == 6 {
        var outcome := otpService.VerifyOTP(m.phone, digits, m.at);
        if outcome == Match {
          stateManager.UpdateState(m.phone, AwaitingConsent, m.at);
          log := log + [Accepted(m.phone, digits, m.at)];
          assert log[|log| - 1].Accepted?;
        } else if outcome == Mismatch {
          log := log + [WrongTry(m.phone)];
          assert log[|log| - 1].WrongTry?;
        }
      }
    }

    method Consent(m: Event)
      requires m.Message?
      modifies this, stateManager, walletService
      ensures View() == WhenAwaitingConsent(old(View()), m.phone, m.text, m.at, m.key)
      ensures log != old(log) + [Enqueued(m.phone)]
    {
      if m.text == "agree" || m.text == "yes" {
        walletService.CreateCustodialWallet(m.phone, m.key);
        stateManager.UpdateState(m.phone, Verified, m.at);
        log := log + [Created(m.phone, m.key)];
        assert log[|log| - 1].Created?;
      } else if m.text == "decline" || m.text == "no" {
        stateManager.UpdateState(m.phone, Unverified, m.at);
      }
    }

    method Acknowledge(m: Event) returns (enqueued: bool)
      requires m.Message?
      modifies this, stateManager
      ensures View() == WhenVerified(old(View()), m.phone, m.at)
      ensures enqueued <==> log == old(log) + [Enqueued(m.phone)]
    {
      var wallet := walletService.GetWallet(m.phone);
      enqueued := wallet.Some?;
      if enqueued {
        log := log + [Enqueued(m.phone)];
      } else {
        stateManager.UpdateState(m.phone, Unverified, m.at);
        log := log + [StaleReset(m.phone)];
        assert log[|log| - 1].StaleReset?;
      }
    }

    method ProcessJob(p: Phone, now: int) returns (executed: bool)
      modifies this, stateManager
      ensures View() == Work(old(View()), p, now)
      ensures executed <==> log == old(log) + [Executed(p)]
      ensures executed <==>
        && p in old(stateManager.sessions) && now <= old(stateManager.sessions)[p].lastMessageTime + 900_000
        && old(stateManager.sessions)[p].state == Verified && p in walletService.wallets
    {
      var session := stateManager.GetSession(p, now);
      var wallet := walletService.GetWallet(p);
      executed := session.state == Verified && wallet.Some?;
      if executed {
        log := log + [Executed(p)];
      }
    }
  }
}
