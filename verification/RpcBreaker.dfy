/** The circuit breaker in front of the RPC endpoints, and the latency samples kept beside it. */
module RpcBreaker {
  import opened Prelude
  import opened Sorting

  const FAILURE_THRESHOLD: nat := 3
  const FAILURE_WINDOW_MS: int := 60_000
  const RESET_INTERVAL_MS: int := 30_000

  datatype Circuit = Closed | Open | HalfOpen

  datatype Breaker = Breaker(circuit: Circuit, failures: seq<int>, openedAt: Option<int>)

  const FRESH := Breaker(Closed, [], None)

  // ---------------------------------------------------------------- one step

  function Since(times: seq<int>, cutoff: int): seq<int> {
    if times == [] then []
    else (if times[0] >= cutoff then [times[0]] else []) + Since(times[1..], cutoff)
  }

  function Prune(b: Breaker, now: int): Breaker {
    b.(failures := Since(b.failures, now - FAILURE_WINDOW_MS))
  }

  function Fail(b: Breaker, now: int): Breaker {
    var counted := Prune(b.(failures := b.failures + [now]), now);
    if |counted.failures| >= FAILURE_THRESHOLD && counted.circuit.Closed?
    then counted.(circuit := Open, openedAt := Some(now))
    else counted
  }

  predicate Elapsed(b: Breaker, now: int) {
    now - (if b.openedAt.Some? then b.openedAt.value else 0) >= RESET_INTERVAL_MS
  }

  /** Asking whether the endpoint is available moves an open circuit to half-open once the interval is over. */
  function Ask(b: Breaker, now: int): Breaker {
    if b.circuit.Open? && Elapsed(b, now) then b.(circuit := HalfOpen) else b
  }

  predicate Available(b: Breaker, now: int) {
    b.circuit.Open? ==> Elapsed(b, now)
  }

  class Endpoint {
    var circuit: Circuit
    var failureTimes: seq<int>
    var openedAt: Option<int>

    constructor ()
      ensures View() == FRESH
    {
      circuit, failureTimes, openedAt := Closed, [], None;
    }

    ghost function View(): Breaker
      reads this
    {
      Breaker(circuit, failureTimes, openedAt)
    }

    method PruneOldFailures(now: int)
      modifies this
      ensures View() == Prune(old(View()), now)
      ensures IsSince(failureTimes, old(failureTimes), now - 60_000)
      ensures circuit == old(circuit) && openedAt == old(openedAt)
    {
      var cutoff := now - FAILURE_WINDOW_MS;
      var kept, i := [], 0;
      while i < |failureTimes|
        invariant 0 <= i <= |failureTimes|
        invariant kept + Since(failureTimes[i..], cutoff) == Since(failureTimes, cutoff)
        invariant View() == old(View())
      {
        assert failureTimes[i..] == [failureTimes[i]] + failureTimes[i + 1..];
        SinceFirst(failureTimes[i], failureTimes[i + 1..], cutoff);
        Regroup(kept, [failureTimes[i]], Since(failureTimes[i + 1..], cutoff));
        if failureTimes[i] >= cutoff {
          kept := kept + [failureTimes[i]];
        }
        i := i + 1;
      }
      assert kept == Since(failureTimes, cutoff);
      failureTimes := kept;
      SinceIsSince(old(failureTimes), cutoff);
    }

    method RecordSuccess()
      modifies this
      ensures View() == FRESH && circuit == Closed && failureTimes == [] && openedAt == None
    {
      failureTimes := [];
      circuit, openedAt := Closed, None;
    }

    method RecordFailure(now: int)
      modifies this
      ensures View() == Fail(old(View()), now)
      ensures IsSince(failureTimes, old(failureTimes) + [now], now - 60_000)
      ensures
        if old(circuit).Closed? && |failureTimes| >= 3 then circuit == Open && openedAt == Some(now)
        else circuit == old(circuit) && openedAt == old(openedAt)
      ensures now in failureTimes
    {
      failureTimes := failureTimes + [now];
      PruneOldFailures(now);
      assert now in multiset(failureTimes);
      if |failureTimes| >= FAILURE_THRESHOLD && circuit == Closed {
        circuit, openedAt := Open, Some(now);
      }
    }

    method IsAvailable(now: int) returns (available: bool)
      modifies this
      ensures View() == Ask(old(View()), now) && available == Available(old(View()), now)
      ensures available <==> old(circuit) == Open ==> (if openedAt.Some? then openedAt.value else 0) + 30_000 <= now
      ensures circuit == (if old(circuit) == Open && available then HalfOpen else old(circuit))
      ensures failureTimes == old(failureTimes) && openedAt == old(openedAt)
    {
      if circuit == Closed {
        return true;
      }
      if circuit == Open {
        var elapsed := now - (if openedAt.Some? then openedAt.value else 0);
        if elapsed >= RESET_INTERVAL_MS {
          circuit := HalfOpen;
          return true;
        }
        return false;
      }
      return true;
    }
  }

  // ---------------------------------------------------------------- one call

  datatype Target = Primary | Fallback

  /** How an attempt ends, and when. */
  datatype Attempt = Attempt(ok: bool, at: int)

  /** The targets asked, in order, and whether the caller gets an answer. */
  datatype Called = Called(tried: seq<Target>, ok: bool)

  function Close(b: Breaker, a: Attempt): Breaker {
    if a.ok then FRESH else Fail(b, a.at)
  }

  function Call(available: bool, hasFallback: bool, retry: bool, first: Attempt, second: Attempt): Called {
    if available && first.ok then Called([Primary], true)
    else if hasFallback && retry then Called((if available then [Primary] else []) + [Fallback], second.ok)
    else Called(if available then [Primary] else [], false)
  }

  class RpcClient {
    const primary: Endpoint
    const fallback: Endpoint
    const hasFallback: bool

    constructor (hasFallback: bool)
      ensures fresh(primary) && fresh(fallback) && primary != fallback && this.hasFallback == hasFallback
      ensures primary.View() == FRESH && fallback.View() == FRESH
    {
      var first := new Endpoint();
      var second := new Endpoint();
      primary, fallback, this.hasFallback := first, second, hasFallback;
    }

    method TimedCall(ep: Endpoint, attempt: Attempt)
      modifies ep
      ensures ep.View() == Close(old(ep.View()), attempt)
      ensures attempt.ok ==> ep.circuit == Closed && ep.failureTimes == [] && ep.openedAt == None
      ensures !attempt.ok ==> attempt.at in ep.failureTimes
    {
      if attempt.ok {
        ep.RecordSuccess();
      } else {
        ep.RecordFailure(attempt.at);
      }
    }

    /** One call with no other in flight; `first` and `second` are what the two endpoints would answer. */
    method RpcCall(retry: bool, now: int, first: Attempt, second: Attempt) returns (called: Called)
      requires primary != fallback
      modifies primary, fallback
      ensures var b := Prune(old(primary.View()), now);
        && called == Call(Available(b, now), hasFallback, retry, first, second)
        && primary.View() == (if Available(b, now) then Close(Ask(b, now), first) else b)
        && fallback.View() ==
           (if Fallback in called.tried then Close(old(fallback.View()), second) else old(fallback.View()))
      ensures
        var since := old(primary.openedAt);
        var available := old(primary.circuit) == Open ==> (if since.Some? then since.value else 0) + 30_000 <= now;
        && (Primary in called.tried <==> available)
        && (Fallback in called.tried <==> hasFallback && retry && !(available && first.ok))
        && (called.ok <==> (available && first.ok) || (Fallback in called.tried && second.ok))
        && (|called.tried| > 1 ==> called.tried == [Primary, Fallback])
      ensures Primary in called.tried && first.ok ==> primary.circuit == Closed && primary.failureTimes == []
      ensures Primary in called.tried && !first.ok ==> first.at in primary.failureTimes
      ensures Fallback in called.tried && second.ok ==> fallback.circuit == Closed && fallback.failureTimes == []
      ensures Fallback in called.tried && !second.ok ==> second.at in fallback.failureTimes
    {
      called := Called([], false);
      primary.PruneOldFailures(now);
      var available := primary.IsAvailable(now);
      if available {
        TimedCall(primary, first);
        if first.ok {
          return Called([Primary], true);
        }
        called := Called([Primary], false);
      }
      if !hasFallback || !retry {
        return;
      }
      TimedCall(fallback, second);
      called := Called(called.tried + [Fallback], second.ok);
    }
  }

  /** A call that did not opt in, such as a submission, is made at most once and never on the fallback. */
  lemma SubmissionsAreNotRepeated(available: bool, hasFallback: bool, first: Attempt, second: Attempt)
    ensures var c := Call(available, hasFallback, false, first, second);
      c.tried == (if available then [Primary] else []) && (c.ok <==> available && first.ok)
  {
  }

  // ---------------------------------------------------------------- overlapping calls

  /** Calls overlap freely: each begins, and later succeeds or fails, at its own time. */
  datatype Event = Begin(at: int) | Succeeded(at: int) | Failed(at: int)

  function Next(b: Breaker, e: Event): Breaker {
    match e
    case Begin(at) => Ask(Prune(b, at), at)
    case Succeeded(_) => FRESH
    case Failed(at) => Fail(b, at)
  }

  function Run(b: Breaker, events: seq<Event>): Breaker {
    if events == [] then b else Next(Run(b, events[..|events| - 1]), events[|events| - 1])
  }

  predicate Ordered(events: seq<Event>) {
    forall i, j :: 0 <= i < j < |events| ==> events[i].at <= events[j].at
  }

  function StillCounting(failures: seq<int>, e: Event): seq<int> {
    match e
    case Begin(_) => failures
    case Succeeded(_) => []
    case Failed(at) => failures + [at]
  }

  /** The times of all failures since the last success. */
  function FailuresSinceSuccess(events: seq<Event>): seq<int> {
    if events == [] then []
    else StillCounting(FailuresSinceSuccess(events[..|events| - 1]), events[|events| - 1])
  }

  /** `kept` has every time at or after the cutoff as often as `times` has it, and no other. */
  ghost predicate IsSince(kept: seq<int>, times: seq<int>, cutoff: int) {
    forall t :: multiset(kept)[t] == if cutoff <= t then multiset(times)[t] else 0
  }

  /** Pruning keeps every failure that lies within the window, as often as it occurred, and no other. */
  lemma {:induction false} SinceIsSince(times: seq<int>, cutoff: int)
    ensures IsSince(Since(times, cutoff), times, cutoff)
  {
    if times != [] {
      SinceIsSince(times[1..], cutoff);
      assert times == [times[0]] + times[1..];
    }
  }

  lemma Regroup(a: seq<int>, b: seq<int>, c: seq<int>)
    ensures a + (b + c) == (a + b) + c && [] + c == c
  {
  }

  lemma SinceFirst(x: int, rest: seq<int>, cutoff: int)
    ensures Since([x] + rest, cutoff) == (if x >= cutoff then [x] else []) + Since(rest, cutoff)
  {
    assert ([x] + rest)[1..] == rest;
  }

  lemma {:induction false} SinceConcat(a: seq<int>, b: seq<int>, cutoff: int)
    ensures Since(a + b, cutoff) == Since(a, cutoff) + Since(b, cutoff)
    decreases |a|
  {
    if a == [] {
      assert a + b == b;
    } else {
      SinceFirst(a[0], a[1..], cutoff);
      SinceFirst(a[0], a[1..] + b, cutoff);
      assert a == [a[0]] + a[1..];
      assert a + b == [a[0]] + (a[1..] + b);
      SinceConcat(a[1..], b, cutoff);
    }
  }

  lemma {:induction false} SinceTwice(a: seq<int>, earlier: int, later: int)
    requires earlier <= later
    ensures Since(Since(a, earlier), later) == Since(a, later)
  {
    if a != [] {
      SinceTwice(a[1..], earlier, later);
      SinceConcat(if a[0] >= earlier then [a[0]] else [], Since(a[1..], earlier), later);
    }
  }

  /** The window that ends with the last event. */
  function Recent(events: seq<Event>): seq<int> {
    if events == [] then []
    else Since(FailuresSinceSuccess(events), events[|events| - 1].at - 60_000)
  }

  lemma {:induction false} SinceNoLonger(a: seq<int>, cutoff: int)
    ensures |Since(a, cutoff)| <= |a|
  {
    if a != [] {
      SinceNoLonger(a[1..], cutoff);
    }
  }

  /** A breaker that counts exactly the failures in the window ending at some instant. */
  predicate Counts(b: Breaker, all: seq<int>, at: int) {
    && b.failures == Since(all, at - FAILURE_WINDOW_MS)
    && (b.circuit.Closed? ==> |b.failures| < FAILURE_THRESHOLD)
    && (b.openedAt.None? <==> b.circuit.Closed?)
  }

  lemma EventKeepsCount(b: Breaker, all: seq<int>, before: int, e: Event)
    requires Counts(b, all, before) && before <= e.at
    ensures Counts(Next(b, e), StillCounting(all, e), e.at)
  {
    var earlier, later := before - FAILURE_WINDOW_MS, e.at - FAILURE_WINDOW_MS;
    SinceTwice(all, earlier, later);
    if e.Begin? {
      SinceNoLonger(b.failures, later);
    } else if e.Failed? {
      SinceConcat(b.failures, [e.at], later);
      SinceConcat(all, [e.at], later);
    }
  }

  /**
   * With a clock that does not go back, the list an endpoint keeps is always all the failures since its last success
   * that lie in the window ending with the last event; a closed circuit has seen fewer of them than the threshold;
   * and an opening time is kept exactly while the circuit is not closed.
   */
  lemma {:induction false} BreakerCountsRecentFailures(events: seq<Event>)
    requires Ordered(events)
    ensures var b := Run(FRESH, events);
      && b.failures == Recent(events)
      && (b.circuit.Closed? ==> |Recent(events)| < 3)
      && (b.openedAt.None? <==> b.circuit.Closed?)
    decreases |events|
  {
    if events != [] {
      var before, last := events[..|events| - 1], events[|events| - 1];
      BreakerCountsRecentFailures(before);
      var at := if before == [] then last.at else before[|before| - 1].at;
      EventKeepsCount(Run(FRESH, before), FailuresSinceSuccess(before), at, last);
    }
  }

  /** The circuit opens on a failure exactly when it was closed and this is at least the third in the window. */
  lemma OpensIff(events: seq<Event>, at: int)
    requires Ordered(events + [Failed(at)])
    ensures var before, after := Run(FRESH, events), Run(FRESH, events + [Failed(at)]);
      before.circuit.Closed? && after.circuit.Open?
      <==> before.circuit.Closed? && |Recent(events + [Failed(at)])| >= 3
  {
    assert (events + [Failed(at)])[..|events|] == events;
    BreakerCountsRecentFailures(events + [Failed(at)]);
  }

  /** While the interval lasts, an open circuit refuses every call, unless an earlier one still comes back well. */
  lemma {:induction false} OpenCircuitRefuses(b: Breaker, events: seq<Event>, openedAt: int)
    requires b.circuit.Open? && b.openedAt == Some(openedAt)
    requires forall i :: 0 <= i < |events| ==> !events[i].Succeeded? && events[i].at < openedAt + 30_000
    ensures Run(b, events).circuit.Open? && Run(b, events).openedAt == Some(openedAt)
    ensures forall now :: Available(Run(b, events), now) <==> openedAt + 30_000 <= now
    decreases |events|
  {
    if events != [] {
      OpenCircuitRefuses(b, events[..|events| - 1], openedAt);
    }
  }

  /**
   * A half-open circuit is left by a success only: until one comes, however many calls fail, it never opens again
   * and every call is let through, not a single probe.
   */
  lemma {:induction false} HalfOpenNeverReopens(b: Breaker, events: seq<Event>)
    requires b.circuit.HalfOpen?
    requires forall i :: 0 <= i < |events| ==> !events[i].Succeeded?
    ensures Run(b, events).circuit.HalfOpen? && Run(b, events).openedAt == b.openedAt
    ensures forall now :: Available(Run(b, events), now)
    decreases |events|
  {
    if events != [] {
      HalfOpenNeverReopens(b, events[..|events| - 1]);
    }
  }

  // ---------------------------------------------------------------- latency samples

  datatype Sample = Sample(url: string, durationMs: int, success: bool, at: int)

  const MAX_SAMPLES: nat := 1_000
  const SAMPLE_WINDOW_MS: int := 300_000

  class LatencyLog {
    var samples: seq<Sample>
    ghost var all: seq<Sample>

    ghost predicate Valid()
      reads this
    {
      samples == LastOf(all, MAX_SAMPLES)
    }

    constructor ()
      ensures Valid() && all == []
    {
      samples, all := [], [];
    }

    /** The log is the last thousand of everything ever recorded, oldest first. */
    method RecordLatency(sample: Sample)
      requires Valid()
      modifies this
      ensures Valid() && all == old(all) + [sample]
    {
      samples, all := samples + [sample], all + [sample];
      if |samples| > MAX_SAMPLES {
        samples := samples[|samples| - MAX_SAMPLES..];
      }
    }

    method GetRpcLatencyPercentiles(url: Option<string>, now: int) returns (p: Percentiles)
      ensures p == PercentilesOf(Durations(samples, url, now - 300_000))
    {
      var relevant := RelevantDurations(url, now - SAMPLE_WINDOW_MS);
      p := PercentilesOf(relevant);
    }

    method RelevantDurations(url: Option<string>, cutoff: int) returns (relevant: seq<int>)
      ensures relevant == Durations(samples, url, cutoff)
    {
      relevant := [];
      var i := 0;
      while i < |samples|
        invariant 0 <= i <= |samples|
        invariant relevant + Durations(samples[i..], url, cutoff) == Durations(samples, url, cutoff)
      {
        assert samples[i..] == [samples[i]] + samples[i + 1..];
        DurationsFirst(samples[i], samples[i + 1..], url, cutoff);
        Regroup(relevant, [samples[i].durationMs], Durations(samples[i + 1..], url, cutoff));
        if IsRelevant(samples[i], url, cutoff) {
          relevant := relevant + [samples[i].durationMs];
        }
        i := i + 1;
      }
      assert relevant == Durations(samples, url, cutoff);
    }
  }

  predicate IsRelevant(s: Sample, url: Option<string>, cutoff: int) {
    s.at >= cutoff && (url.None? || s.url == url.value)
  }

  function Durations(samples: seq<Sample>, url: Option<string>, cutoff: int): seq<int> {
    if samples == [] then []
    else (if IsRelevant(samples[0], url, cutoff) then [samples[0].durationMs] else []) + Durations(samples[1..], url, cutoff)
  }

  /** The samples from k on that are recent enough and of the endpoint asked for. */
  ghost function Relevant(samples: seq<Sample>, url: Option<string>, cutoff: int, k: nat): set<int> {
    set i | k <= i < |samples| && cutoff <= samples[i].at && (url.Some? ==> samples[i].url == url.value)
  }

  lemma RelevantFrom(samples: seq<Sample>, url: Option<string>, cutoff: int, k: nat)
    requires k < |samples|
    ensures |Relevant(samples, url, cutoff, k)|
         == |Relevant(samples, url, cutoff, k + 1)| + if IsRelevant(samples[k], url, cutoff) then 1 else 0
  {
    var rest := Relevant(samples, url, cutoff, k + 1);
    assert Relevant(samples, url, cutoff, k) == if IsRelevant(samples[k], url, cutoff) then {k} + rest else rest;
  }

  lemma {:induction false} DurationsAreRelevant(samples: seq<Sample>, url: Option<string>, cutoff: int, k: nat)
    requires k <= |samples|
    ensures |Durations(samples[k..], url, cutoff)| == |Relevant(samples, url, cutoff, k)|
    decreases |samples| - k
  {
    if k == |samples| {
      assert Relevant(samples, url, cutoff, k) == {};
    } else {
      DurationsAreRelevant(samples, url, cutoff, k + 1);
      RelevantFrom(samples, url, cutoff, k);
      assert samples[k..][1..] == samples[k + 1..];
    }
  }

  lemma {:induction false} DurationIsRelevant(samples: seq<Sample>, url: Option<string>, cutoff: int, d: int)
    requires d in Durations(samples, url, cutoff)
    ensures exists i :: i in Relevant(samples, url, cutoff, 0) && samples[i].durationMs == d
  {
    if IsRelevant(samples[0], url, cutoff) && d == samples[0].durationMs {
      assert 0 in Relevant(samples, url, cutoff, 0);
    } else {
      DurationIsRelevant(samples[1..], url, cutoff, d);
      var i :| i in Relevant(samples[1..], url, cutoff, 0) && samples[1..][i].durationMs == d;
      assert i + 1 in Relevant(samples, url, cutoff, 0) && samples[i + 1] == samples[1..][i];
    }
  }

  /** The durations taken are those of the relevant samples, as many as there are. */
  lemma DurationsCount(samples: seq<Sample>, url: Option<string>, cutoff: int)
    ensures |Durations(samples, url, cutoff)| == |Relevant(samples, url, cutoff, 0)|
  {
    assert samples[0..] == samples;
    DurationsAreRelevant(samples, url, cutoff, 0);
  }

  lemma DurationsFirst(first: Sample, rest: seq<Sample>, url: Option<string>, cutoff: int)
    ensures Durations([first] + rest, url, cutoff)
         == (if IsRelevant(first, url, cutoff) then [first.durationMs] else []) + Durations(rest, url, cutoff)
  {
    assert ([first] + rest)[1..] == rest;
  }

  datatype Percentiles = Percentiles(p50: int, p95: int, p99: int, count: nat)

  /** A share of at most a hundred percent of m is at most m. */
  lemma ShareAtMost(m: nat, pct: nat)
    requires pct <= 100
    ensures 0 <= m * pct <= m * 100
  {
  }

  /** Which of n sorted samples is the pct-th percentile. */
  function IndexOf(n: nat, pct: nat): (i: nat)
    requires n > 0 && pct <= 100
    ensures i < n
  {
    ShareAtMost(n - 1, pct);
    var share := (n - 1) * pct;
    share / 100
  }

  function PercentilesOf(durations: seq<int>): Percentiles {
    var n := |durations|;
    if n == 0 then Percentiles(0, 0, 0, 0)
    else
      SortKeepsLength(durations);
      var sorted := Sort(durations);
      Percentiles(sorted[IndexOf(n, 50)], sorted[IndexOf(n, 95)], sorted[IndexOf(n, 99)], n)
  }

  /** p is one of the samples; more than share/100 of them are at most p, and no more than that are below it. */
  ghost predicate Ranks(durations: seq<int>, share: int, p: int) {
    p in durations && |AtMost(durations, 0, p - 1)| * 100 <= share < |AtMost(durations, 0, p)| * 100
  }

  /** The share is pct percent of the other samples. */
  ghost predicate IsPercentile(durations: seq<int>, pct: nat, p: int) {
    Ranks(durations, (|durations| - 1) * pct, p)
  }

  lemma ShareIsBetween(share: nat, below: nat, upto: nat)
    requires below <= share / 100 < upto
    ensures below * 100 <= share < upto * 100
  {
  }

  /** The i-th of the sorted samples is a sample; at most i are below it and more than i are at most it. */
  lemma RankOfSorted(durations: seq<int>, i: nat)
    requires i < |durations|
    ensures |Sort(durations)| == |durations| && Sort(durations)[i] in durations
    ensures |AtMost(durations, 0, Sort(durations)[i] - 1)| <= i < |AtMost(durations, 0, Sort(durations)[i])|
  {
    SortKeepsLength(durations);
    SortAscends(durations);
    var sorted := Sort(durations);
    CountToIndex(sorted, i);
    SortCounts(durations, sorted[i]);
    SortCounts(durations, sorted[i] - 1);
    SortMembers(durations, sorted[i]);
    assert durations[0..] == durations;
    CountIsSize(durations, 0, sorted[i]);
    CountIsSize(durations, 0, sorted[i] - 1);
  }

  lemma RankOfShare(durations: seq<int>, share: nat)
    requires share / 100 < |durations|
    ensures |Sort(durations)| == |durations| && Ranks(durations, share, Sort(durations)[share / 100])
  {
    RankOfSorted(durations, share / 100);
    var p := Sort(durations)[share / 100];
    ShareIsBetween(share, |AtMost(durations, 0, p - 1)|, |AtMost(durations, 0, p)|);
  }

  lemma RankedSampleIsPercentile(durations: seq<int>, pct: nat)
    requires durations != [] && pct <= 100
    ensures |Sort(durations)| == |durations|
    ensures IsPercentile(durations, pct, Sort(durations)[IndexOf(|durations|, pct)])
  {
    ShareAtMost(|durations| - 1, pct);
    RankOfShare(durations, (|durations| - 1) * pct);
  }

  /** The three figures are samples of the right rank, in order. */
  lemma PercentilesAreSamplesInOrder(durations: seq<int>)
    requires durations != []
    ensures var p := PercentilesOf(durations);
      && IsPercentile(durations, 50, p.p50) && IsPercentile(durations, 95, p.p95) && IsPercentile(durations, 99, p.p99)
      && p.p50 <= p.p95 <= p.p99
  {
    RankedSampleIsPercentile(durations, 50);
    RankedSampleIsPercentile(durations, 95);
    RankedSampleIsPercentile(durations, 99);
    SortAscends(durations);
    IndexGrows(|durations|);
  }

  lemma IndexGrows(n: nat)
    requires n > 0
    ensures IndexOf(n, 50) <= IndexOf(n, 95) <= IndexOf(n, 99)
  {
  }
}
