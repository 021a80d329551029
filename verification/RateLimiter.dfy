/** The fixed-window message limiter, keyed by phone hash. */
module RateLimiter {
  import opened Prelude

  const WINDOW_MS: int := 60_000

  datatype Entry = Entry(count: int, windowStart: int)

  type Table = map<string, Entry>

  datatype Verdict = Verdict(table: Table, allowed: bool)

  /** The key has a window that is still running. */
  predicate Live(t: Table, key: string, now: int) {
    key in t && now - t[key].windowStart <= WINDOW_MS
  }

  function Check(t: Table, key: string, now: int, max: int): Verdict {
    if !Live(t, key, now) then Verdict(t[key := Entry(1, now)], true)
    else if t[key].count >= max then Verdict(t, false)
    else Verdict(t[key := t[key].(count := t[key].count + 1)], true)
  }

  function Remaining(t: Table, key: string, now: int, max: int): int {
    if !Live(t, key, now) then max else Max(0, max - t[key].count)
  }

  class WebhookRateLimiter {
    const max: int
    var entries: Table

    constructor (max: int)
      ensures this.max == max && entries == map[]
    {
      this.max, entries := max, map[];
    }

    method CheckWebhookRateLimit(key: string, now: int) returns (allowed: bool)
      modifies this
      ensures Verdict(entries, allowed) == Check(old(entries), key, now, max)
      ensures
        var t := old(entries);
        if key !in t || t[key].windowStart + 60_000 < now then allowed && entries == t[key := Entry(1, now)]
        else
          && (allowed <==> t[key].count < max)
          && entries == if allowed then t[key := Entry(t[key].count + 1, t[key].windowStart)] else t
    {
      if key !in entries || now - entries[key].windowStart > WINDOW_MS {
        entries := entries[key := Entry(1, now)];
        return true;
      }
      var entry := entries[key];
      if entry.count >= max {
        return false;
      }
      entries := entries[key := Entry(entry.count + 1, entry.windowStart)];
      return true;
    }

    method GetWebhookRateLimitRemaining(key: string, now: int) returns (left: int)
      ensures left == Remaining(entries, key, now, max)
      ensures
        if key !in entries || entries[key].windowStart + 60_000 < now then left == max
        else left >= 0 && left >= max - entries[key].count && (left > 0 ==> left == max - entries[key].count)
    {
      if key !in entries || now - entries[key].windowStart > WINDOW_MS {
        return max;
      }
      return if max - entries[key].count > 0 then max - entries[key].count else 0;
    }
  }

  // ---------------------------------------------------------------- runs of messages

  datatype Message = Message(key: string, at: int)

  /** How many messages of `key` with a time in [from, until] get through. */
  function Accepted(t: Table, messages: seq<Message>, max: int, key: string, from: int, until: int): nat
    decreases |messages|
  {
    if messages == [] then 0
    else
      var m := messages[0];
      var v := Check(t, m.key, m.at, max);
      (if v.allowed && m.key == key && from <= m.at <= until then 1 else 0)
      + Accepted(v.table, messages[1..], max, key, from, until)
  }

  predicate Ordered(messages: seq<Message>) {
    forall i, j :: 0 <= i < j < |messages| ==> messages[i].at <= messages[j].at
  }

  /** A zero or negative maximum still lets the first message of each window through. */
  function PerWindow(max: int): int { Max(1, max) }

  /** What the checks keep: no window has let more than its share through, or starts in the future. */
  ghost predicate Sound(t: Table, key: string, messages: seq<Message>, max: int) {
    key in t ==>
      && 1 <= t[key].count <= PerWindow(max)
      && (messages != [] ==> t[key].windowStart <= messages[0].at)
  }

  lemma {:induction false} NothingAfterTheInterval(
    t: Table, messages: seq<Message>, max: int, key: string, from: int, until: int)
    requires Ordered(messages) && (messages != [] ==> until < messages[0].at)
    ensures Accepted(t, messages, max, key, from, until) == 0
    decreases |messages|
  {
    if messages != [] {
      NothingAfterTheInterval(Check(t, messages[0].key, messages[0].at, max).table, messages[1..], max, key, from, until);
    }
  }

  /** What can still get through by `from` + WINDOW_MS, once `from` is reached. */
  function Capacity(t: Table, max: int, key: string, from: int): int {
    if key !in t then 2 * PerWindow(max) - 1
    else if t[key].windowStart < from then 2 * PerWindow(max) - t[key].count
    else PerWindow(max) - t[key].count
  }

  lemma {:induction false} AcceptedWithinCapacity(t: Table, messages: seq<Message>, max: int, key: string, from: int)
    requires Ordered(messages) && Sound(t, key, messages, max)
    requires messages != [] ==> from <= messages[0].at
    ensures Accepted(t, messages, max, key, from, from + WINDOW_MS) <= Capacity(t, max, key, from)
    decreases |messages|
  {
    if messages != [] {
      var m, rest := messages[0], messages[1..];
      if m.at > from + WINDOW_MS {
        NothingAfterTheInterval(t, messages, max, key, from, from + WINDOW_MS);
      } else {
        AcceptedWithinCapacity(Check(t, m.key, m.at, max).table, rest, max, key, from);
      }
    }
  }

  lemma {:induction false} AcceptedInInterval(t: Table, messages: seq<Message>, max: int, key: string, from: int)
    requires Ordered(messages) && Sound(t, key, messages, max)
    ensures Accepted(t, messages, max, key, from, from + WINDOW_MS) <= 2 * PerWindow(max) - 1
    decreases |messages|
  {
    if messages != [] {
      if from <= messages[0].at {
        AcceptedWithinCapacity(t, messages, max, key, from);
      } else {
        AcceptedInInterval(Check(t, messages[0].key, messages[0].at, max).table, messages[1..], max, key, from);
      }
    }
  }

  /**
   * However messages of all phones come in, as long as the clock does not go back, no closed interval of one window's
   * length sees more than 2 * max - 1 messages of a phone accepted.
   */
  lemma AtMostTwoWindowsWorth(messages: seq<Message>, max: int, key: string, from: int)
    requires Ordered(messages)
    ensures Accepted(map[], messages, max, key, from, from + WINDOW_MS) <= 2 * PerWindow(max) - 1
  {
    AcceptedInInterval(map[], messages, max, key, from);
  }

  // ---------------------------------------------------------------- bursts

  function Burst(key: string, at: int, n: nat): (b: seq<Message>)
    ensures |b| == n && forall i :: 0 <= i < n ==> b[i] == Message(key, at)
  {
    seq(n, i => Message(key, at))
  }

  lemma BurstTail(key: string, at: int, n: nat)
    requires n > 0
    ensures Burst(key, at, n)[0] == Message(key, at) && Burst(key, at, n)[1..] == Burst(key, at, n - 1)
  {
  }

  function AfterBurst(t: Table, key: string, at: int, n: nat, max: int): Table
    decreases n
  {
    if n == 0 then t else AfterBurst(Check(t, key, at, max).table, key, at, n - 1, max)
  }

  /** A burst is followed by the rest as if it had been checked first. */
  lemma {:induction false} BurstThenRest(
    t: Table, key: string, at: int, n: nat, rest: seq<Message>, max: int, from: int, until: int)
    ensures Accepted(t, Burst(key, at, n) + rest, max, key, from, until)
      == Accepted(t, Burst(key, at, n), max, key, from, until)
       + Accepted(AfterBurst(t, key, at, n, max), rest, max, key, from, until)
    decreases n
  {
    if n == 0 {
      assert Burst(key, at, 0) + rest == rest;
    } else {
      BurstTail(key, at, n);
      assert (Burst(key, at, n) + rest)[1..] == Burst(key, at, n - 1) + rest;
      BurstThenRest(Check(t, key, at, max).table, key, at, n - 1, rest, max, from, until);
    }
  }

  /** Within a running window, exactly what is left of its share gets through. */
  lemma {:induction false} BurstInWindow(t: Table, key: string, at: int, n: nat, max: int, from: int, until: int)
    requires Live(t, key, at) && from <= at <= until
    ensures Accepted(t, Burst(key, at, n), max, key, from, until) == Min(n, Max(0, max - t[key].count))
    ensures Live(AfterBurst(t, key, at, n, max), key, at)
    ensures AfterBurst(t, key, at, n, max)[key] ==
      Entry(t[key].count + Min(n, Max(0, max - t[key].count)), t[key].windowStart)
    decreases n
  {
    if n > 0 {
      BurstTail(key, at, n);
      BurstInWindow(Check(t, key, at, max).table, key, at, n - 1, max, from, until);
    }
  }

  /** How many of n messages sent at once would get through. */
  function AcceptedAtOnce(t: Table, key: string, now: int, n: nat, max: int): nat {
    Accepted(t, Burst(key, now, n), max, key, now, now)
  }

  ghost predicate RemainingIsExact(t: Table, key: string, now: int, max: int) {
    forall n: nat :: AcceptedAtOnce(t, key, now, n, max) == Min(n, Remaining(t, key, now, max))
  }

  lemma {:induction false} AcceptedAtOnceIs(t: Table, key: string, now: int, n: nat, max: int)
    ensures AcceptedAtOnce(t, key, now, n, max) ==
      Min(n, if Live(t, key, now) then Max(0, max - t[key].count) else PerWindow(max))
  {
    if Live(t, key, now) {
      BurstInWindow(t, key, now, n, max, now, now);
    } else if n > 0 {
      BurstTail(key, now, n);
      BurstInWindow(Check(t, key, now, max).table, key, now, n - 1, max, now, now);
    }
  }

  /**
   * The reported quota is the number of further immediate messages that get through, exactly when the maximum is
   * positive or a window is running: with none running, a limit of zero still lets one message in.
   */
  lemma RemainingIsExactIff(t: Table, key: string, now: int, max: int)
    ensures RemainingIsExact(t, key, now, max) <==> max >= 1 || Live(t, key, now)
  {
    forall n: nat
      ensures AcceptedAtOnce(t, key, now, n, max) ==
        Min(n, if Live(t, key, now) then Max(0, max - t[key].count) else PerWindow(max))
    {
      AcceptedAtOnceIs(t, key, now, n, max);
    }
    assert RemainingIsExact(t, key, now, max) ==> AcceptedAtOnce(t, key, now, 1, max) == Min(1, Remaining(t, key, now, max));
  }

  /** A burst that meets no running window: it opens one, and up to the maximum gets through. */
  lemma BurstOpensWindow(t: Table, key: string, at: int, n: nat, max: int, from: int, until: int)
    requires !Live(t, key, at) && n >= 1 && max >= 1 && from <= at <= until
    ensures Accepted(t, Burst(key, at, n), max, key, from, until) == Min(n, max)
  {
    BurstTail(key, at, n);
    BurstInWindow(Check(t, key, at, max).table, key, at, n - 1, max, from, until);
  }

  /** A window opened at zero, filled at its last instant, and followed at once by the next one. */
  lemma LateBurstThenNext(t: Table, max: int, key: string)
    requires max >= 1 && key in t && t[key] == Entry(1, 0)
    ensures Accepted(t, Burst(key, WINDOW_MS, max - 1) + Burst(key, WINDOW_MS + 1, max), max, key, WINDOW_MS, 2 * WINDOW_MS)
         == 2 * max - 1
  {
    BurstThenRest(t, key, WINDOW_MS, max - 1, Burst(key, WINDOW_MS + 1, max), max, WINDOW_MS, 2 * WINDOW_MS);
    BurstInWindow(t, key, WINDOW_MS, max - 1, max, WINDOW_MS, 2 * WINDOW_MS);
    BurstOpensWindow(AfterBurst(t, key, WINDOW_MS, max - 1, max), key, WINDOW_MS + 1, max, max, WINDOW_MS, 2 * WINDOW_MS);
  }

  /** The bound is reached, for every positive maximum: the window's last instant meets the start of the next one. */
  lemma TheBoundIsReached(max: int, key: string) returns (messages: seq<Message>)
    requires max >= 1
    ensures Ordered(messages)
    ensures Accepted(map[], messages, max, key, WINDOW_MS, 2 * WINDOW_MS) == 2 * max - 1
  {
    var bursts := Burst(key, WINDOW_MS, max - 1) + Burst(key, WINDOW_MS + 1, max);
    messages := [Message(key, 0)] + bursts;
    assert messages[1..] == bursts;
    LateBurstThenNext(Check(map[], key, 0, max).table, max, key);
  }

  // ---------------------------------------------------------------- phones do not disturb each other

  function Only(messages: seq<Message>, key: string): seq<Message> {
    if messages == [] then []
    else (if messages[0].key == key then [messages[0]] else []) + Only(messages[1..], key)
  }

  /** What a phone gets through depends on its own messages only. */
  lemma {:induction false} PhonesAreIndependent(
    t: Table, u: Table, messages: seq<Message>, max: int, key: string, from: int, until: int)
    requires (key in t <==> key in u) && (key in t ==> t[key] == u[key])
    ensures Accepted(t, messages, max, key, from, until) == Accepted(u, Only(messages, key), max, key, from, until)
    decreases |messages|
  {
    if messages != [] {
      var m, rest := messages[0], messages[1..];
      var next := Check(t, m.key, m.at, max).table;
      if m.key == key {
        assert Only(messages, key)[1..] == Only(rest, key);
        PhonesAreIndependent(next, Check(u, key, m.at, max).table, rest, max, key, from, until);
      } else {
        assert Only(messages, key) == Only(rest, key);
        PhonesAreIndependent(next, u, rest, max, key, from, until);
      }
    }
  }
}
