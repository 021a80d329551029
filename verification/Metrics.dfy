/** The monitoring engine: bounded histories, allocation shares, hourly flows and the figures alerts are based on. */
module Metrics {
  import opened Prelude
  import opened Sorting
  import opened StrategyAllocation

  const MAX_HISTORY: nat := 10_000
  const HOUR_MS: int := 3_600_000

  datatype Kind = Deposit | Withdrawal

  datatype Flow = Flow(at: int, kind: Kind, user: string, amount: int)

  datatype Bucket = Bucket(hour: int, deposits: int, withdrawals: int)

  datatype Trends = Trends(deposits: int, withdrawals: int, net: int, uniqueUsers: nat, hourly: seq<Bucket>)

  datatype Rebalance = Rebalance(at: int, success: bool)

  // ---------------------------------------------------------------- what the figures mean

  function Share(amount: int, total: int): int {
    if total > 0 then RoundDiv(amount * 10_000, total) else 0
  }

  function Total(amounts: seq<int>): int {
    if amounts == [] then 0 else Total(amounts[..|amounts| - 1]) + amounts[|amounts| - 1]
  }

  function Shares(amounts: seq<int>): (shares: seq<int>)
    ensures |shares| == |amounts|
  {
    seq(|amounts|, i requires 0 <= i < |amounts| => Share(amounts[i], Total(amounts)))
  }

  function HourOf(at: int): int { at / HOUR_MS * HOUR_MS }

  /** What flowed one way. */
  function Sum(flows: seq<Flow>, k: Kind): int {
    if flows == [] then 0
    else Sum(flows[..|flows| - 1], k) + if flows[|flows| - 1].kind == k then flows[|flows| - 1].amount else 0
  }

  /** What flowed one way in one hour. */
  function SumIn(flows: seq<Flow>, hour: int, k: Kind): int {
    if flows == [] then 0
    else
      var f := flows[|flows| - 1];
      SumIn(flows[..|flows| - 1], hour, k) + if f.kind == k && HourOf(f.at) == hour then f.amount else 0
  }

  /** The hours in which something flowed, by first occurrence. */
  function Hours(flows: seq<Flow>): seq<int> {
    if flows == [] then []
    else
      var before, hour := Hours(flows[..|flows| - 1]), HourOf(flows[|flows| - 1].at);
      if hour in before then before else before + [hour]
  }

  function HourlyOf(flows: seq<Flow>, hours: seq<int>): (buckets: seq<Bucket>)
    ensures |buckets| == |hours|
  {
    seq(|hours|, i requires 0 <= i < |hours| =>
      Bucket(hours[i], SumIn(flows, hours[i], Deposit), SumIn(flows, hours[i], Withdrawal)))
  }

  function Users(flows: seq<Flow>): set<string> {
    set i | 0 <= i < |flows| :: flows[i].user
  }

  function TrendsOf(flows: seq<Flow>): Trends {
    var d, w := Sum(flows, Deposit), Sum(flows, Withdrawal);
    Trends(d, w, d - w, |Users(flows)|, HourlyOf(flows, Sort(Hours(flows))))
  }

  /** The failures at the end of a history. */
  function FailingSuffix(rebalances: seq<Rebalance>): nat {
    if rebalances == [] || rebalances[|rebalances| - 1].success then 0
    else 1 + FailingSuffix(rebalances[..|rebalances| - 1])
  }

  /** The observations of total value so far: the last, and the highest. */
  datatype Seen = Seen(tvl: int, peak: int)

  function Observe(values: seq<int>): Seen {
    if values == [] then Seen(0, 0)
    else
      var before, value := Observe(values[..|values| - 1]), values[|values| - 1];
      Seen(value, Max(before.peak, value))
  }

  function DropBps(peak: int, tvl: int): int {
    if peak > 0 then RoundDiv((peak - tvl) * 10_000, peak) else 0
  }

  function ErrorsSince(errors: seq<int>, since: int): nat {
    if errors == [] then 0 else ErrorsSince(errors[..|errors| - 1], since) + if errors[|errors| - 1] >= since then 1 else 0
  }

  function ErrorRateBps(errors: nat, operations: nat): int {
    if operations > 0 then RoundDiv(errors * 10_000, operations) else 0
  }

  // ---------------------------------------------------------------- the engine

  class MetricsEngine {
    var tvl: int
    var peakTvl: int
    var shares: seq<int>
    var rebalances: seq<Rebalance>
    var flows: seq<Flow>
    var errors: seq<int>
    var operationCount: nat
    ghost var allTvls: seq<int>
    ghost var allRebalances: seq<Rebalance>
    ghost var allFlows: seq<Flow>
    ghost var allErrors: seq<int>

    /** Each history is the last ten thousand of everything ever recorded, in order. */
    ghost predicate Valid()
      reads this
    {
      && Seen(tvl, peakTvl) == Observe(allTvls)
      && rebalances == LastOf(allRebalances, MAX_HISTORY)
      && flows == LastOf(allFlows, MAX_HISTORY)
      && errors == LastOf(allErrors, MAX_HISTORY)
      && |allFlows| + |allErrors| <= operationCount
    }

    constructor ()
      ensures Valid() && shares == [] && operationCount == 0
      ensures allTvls == [] && allRebalances == [] && allFlows == [] && allErrors == []
    {
      tvl, peakTvl, shares, rebalances, flows, errors, operationCount := 0, 0, [], [], [], [], 0;
      allTvls, allRebalances, allFlows, allErrors := [], [], [], [];
    }

    method RecordTvl(value: int)
      requires Valid()
      modifies this`tvl, this`peakTvl, this`allTvls
      ensures Valid() && allTvls == old(allTvls) + [value]
      ensures tvl == value && peakTvl == if old(peakTvl) < value then value else old(peakTvl)
    {
      tvl := value;
      if value > peakTvl {
        peakTvl := value;
      }
      allTvls := allTvls + [value];
      assert allTvls[..|allTvls| - 1] == old(allTvls);
    }

    method RecordAllocations(amounts: seq<int>)
      requires Valid()
      modifies this`shares
      ensures Valid() && shares == Shares(amounts)
      ensures |shares| == |amounts| && forall i :: 0 <= i < |amounts| ==> IsShare(shares[i], amounts[i], Total(amounts))
    {
      var total := 0;
      for i := 0 to |amounts|
        invariant total == Total(amounts[..i])
      {
        assert amounts[..i + 1][..i] == amounts[..i];
        total := total + amounts[i];
      }
      assert amounts[..|amounts|] == amounts;
      var out := [];
      for i := 0 to |amounts|
        invariant |out| == i && forall j :: 0 <= j < i ==> out[j] == Share(amounts[j], total)
      {
        out := out + [if total > 0 then RoundDiv(amounts[i] * 10_000, total) else 0];
      }
      shares := out;
      forall i | 0 <= i < |amounts|
        ensures IsShare(shares[i], amounts[i], total)
      {
        ShareIsNearest(amounts[i], total);
      }
    }

    method RecordRebalance(at: int, success: bool)
      requires Valid()
      modifies this`rebalances, this`allRebalances
      ensures Valid() && allRebalances == old(allRebalances) + [Rebalance(at, success)]
    {
      rebalances := Push(rebalances, Rebalance(at, success));
      allRebalances := allRebalances + [Rebalance(at, success)];
    }

    method RecordFlow(f: Flow)
      requires Valid()
      modifies this`flows, this`allFlows, this`operationCount
      ensures Valid() && allFlows == old(allFlows) + [f] && operationCount == old(operationCount) + 1
    {
      operationCount := operationCount + 1;
      flows := Push(flows, f);
      allFlows := allFlows + [f];
    }

    method RecordError(at: int)
      requires Valid()
      modifies this`errors, this`allErrors, this`operationCount
      ensures Valid() && allErrors == old(allErrors) + [at] && operationCount == old(operationCount) + 1
    {
      operationCount := operationCount + 1;
      errors := Push(errors, at);
      allErrors := allErrors + [at];
    }

    method RecordOperation()
      requires Valid()
      modifies this`operationCount
      ensures Valid() && operationCount == old(operationCount) + 1
    {
      operationCount := operationCount + 1;
    }

    method CountConsecutiveFailures() returns (consecutive: nat)
      ensures consecutive == FailingSuffix(rebalances) && FailsExactly(rebalances, consecutive)
    {
      FailingSuffixIsExact(rebalances, FailingSuffix(rebalances));
      consecutive := 0;
      var i := |rebalances|;
      assert rebalances[..i] == rebalances;
      while i > 0 && !rebalances[i - 1].success
        invariant 0 <= i <= |rebalances|
        invariant FailingSuffix(rebalances) == consecutive + FailingSuffix(rebalances[..i])
      {
        assert rebalances[..i][..i - 1] == rebalances[..i - 1];
        consecutive, i := consecutive + 1, i - 1;
      }
    }

    method ErrorRate(now: int, windowMs: int) returns (rateBps: int)
      ensures rateBps == ErrorRateBps(ErrorsSince(errors, now - windowMs), operationCount)
      ensures IsShare(rateBps, |Late(errors, now - windowMs)|, operationCount)
    {
      ErrorsSinceCounts(errors, now - windowMs);
      ShareIsNearest(|Late(errors, now - windowMs)|, operationCount);
      var windowErrors := 0;
      for i := 0 to |errors|
        invariant windowErrors == ErrorsSince(errors[..i], now - windowMs)
      {
        assert errors[..i + 1][..i] == errors[..i];
        if now - errors[i] <= windowMs {
          windowErrors := windowErrors + 1;
        }
      }
      assert errors[..|errors|] == errors;
      rateBps := if operationCount > 0 then RoundDiv(windowErrors * 10_000, operationCount) else 0;
    }

    /** One pass over the flows: the hours in order of appearance, their buckets, and the totals. */
    method BucketFlows() returns (order: seq<int>, buckets: map<int, Bucket>, deposits: int, withdrawals: int)
      ensures order == Hours(flows) && Buckets(flows, buckets)
      ensures deposits == Sum(flows, Deposit) && withdrawals == Sum(flows, Withdrawal)
    {
      order, buckets, deposits, withdrawals := [], map[], 0, 0;
      for i := 0 to |flows|
        invariant Bucketed(flows[..i], order, buckets, deposits, withdrawals)
      {
        order, buckets, deposits, withdrawals :=
          BucketFlow(flows[..i], order, buckets, deposits, withdrawals, flows[i]);
        assert flows[..i + 1] == flows[..i] + [flows[i]];
      }
      assert flows[..|flows|] == flows;
    }

    method BuildUserTrends() returns (t: Trends)
      ensures t == TrendsOf(flows)
      ensures t.net == t.deposits - t.withdrawals && t.uniqueUsers == |set f | f in flows :: f.user|
    {
      assert Users(flows) == set f | f in flows :: f.user;
      var order, buckets, deposits, withdrawals := BucketFlows();
      var hours := Sort(order);
      var hourly := [];
      for i := 0 to |hours|
        invariant |hourly| == i && forall j :: 0 <= j < i ==> hourly[j] == HourlyOf(flows, hours)[j]
      {
        SortMembers(order, hours[i]);
        hourly := hourly + [buckets[hours[i]]];
      }
      t := Trends(deposits, withdrawals, deposits - withdrawals, |Users(flows)|, hourly);
    }
  }

  /** A bucket for every hour in which something flowed, with what flowed in it. */
  ghost predicate Buckets(flows: seq<Flow>, buckets: map<int, Bucket>) {
    && (forall h :: h in Hours(flows) <==> h in buckets)
    && forall h :: h in buckets ==> buckets[h] == Bucket(h, SumIn(flows, h, Deposit), SumIn(flows, h, Withdrawal))
  }

  /** The bucket of a flow, with the flow added. */
  function Grown(buckets: map<int, Bucket>, f: Flow): Bucket {
    var hour := HourOf(f.at);
    var bucket := if hour in buckets then buckets[hour] else Bucket(hour, 0, 0);
    if f.kind.Deposit? then bucket.(deposits := bucket.deposits + f.amount)
    else bucket.(withdrawals := bucket.withdrawals + f.amount)
  }

  lemma OneMoreBucket(flows: seq<Flow>, buckets: map<int, Bucket>, f: Flow)
    requires Buckets(flows, buckets)
    ensures Buckets(flows + [f], buckets[HourOf(f.at) := Grown(buckets, f)])
    ensures Hours(flows + [f]) == if HourOf(f.at) in buckets then Hours(flows) else Hours(flows) + [HourOf(f.at)]
  {
    assert (flows + [f])[..|flows|] == flows;
    if HourOf(f.at) !in buckets {
      NothingInOtherHours(flows, HourOf(f.at), Deposit);
      NothingInOtherHours(flows, HourOf(f.at), Withdrawal);
    }
  }

  ghost predicate Bucketed(
    flows: seq<Flow>, order: seq<int>, buckets: map<int, Bucket>, deposits: int, withdrawals: int)
  {
    && order == Hours(flows) && Buckets(flows, buckets)
    && deposits == Sum(flows, Deposit) && withdrawals == Sum(flows, Withdrawal)
  }

  lemma OneMoreBucketed(
    flows: seq<Flow>, order: seq<int>, buckets: map<int, Bucket>, deposits: int, withdrawals: int, f: Flow)
    requires Bucketed(flows, order, buckets, deposits, withdrawals)
    ensures var hour := HourOf(f.at);
      Bucketed(flows + [f], if hour in buckets then order else order + [hour], buckets[hour := Grown(buckets, f)],
               deposits + (if f.kind.Deposit? then f.amount else 0),
               withdrawals + if f.kind.Withdrawal? then f.amount else 0)
  {
    OneMoreBucket(flows, buckets, f);
    assert (flows + [f])[..|flows|] == flows;
  }

  method BucketFlow(
    ghost before: seq<Flow>, order: seq<int>, buckets: map<int, Bucket>, deposits: int, withdrawals: int, f: Flow)
    returns (order2: seq<int>, buckets2: map<int, Bucket>, deposits2: int, withdrawals2: int)
    requires Bucketed(before, order, buckets, deposits, withdrawals)
    ensures Bucketed(before + [f], order2, buckets2, deposits2, withdrawals2)
  {
    OneMoreBucketed(before, order, buckets, deposits, withdrawals, f);
    order2, deposits2, withdrawals2 := order, deposits, withdrawals;
    var hour := HourOf(f.at);
    var bucket := if hour in buckets then buckets[hour] else Bucket(hour, 0, 0);
    if hour !in buckets {
      order2 := order + [hour];
    }
    if f.kind.Deposit? {
      bucket := bucket.(deposits := bucket.deposits + f.amount);
      deposits2 := deposits + f.amount;
    } else {
      bucket := bucket.(withdrawals := bucket.withdrawals + f.amount);
      withdrawals2 := withdrawals + f.amount;
    }
    assert bucket == Grown(buckets, f);
    buckets2 := buckets[hour := bucket];
  }

  method Push<T>(history: seq<T>, item: T) returns (pushed: seq<T>)
    ensures pushed == LastOf(history + [item], MAX_HISTORY)
    ensures |pushed| == Min(|history| + 1, 10_000) && pushed == (history + [item])[|history| + 1 - |pushed|..]
  {
    pushed := history + [item];
    if |pushed| > MAX_HISTORY {
      pushed := pushed[|pushed| - MAX_HISTORY..];
    }
  }

  // ---------------------------------------------------------------- shares

  /** To the nearest basis point; nothing when the total is not positive. */
  predicate IsShare(share: int, amount: int, total: int) {
    if total <= 0 then share == 0 else Nearest(share, 10_000 * amount, total)
  }

  lemma ShareIsNearest(amount: int, total: int)
    ensures IsShare(Share(amount, total), amount, total)
  {
    if total > 0 {
      RoundDivIsNearest(amount * 10_000, total, Share(amount, total));
    }
  }

  lemma RoundedOneMore(n: int, total: int, sum: int, part: int, amount: int)
    requires total > 0
    requires 2 * total * sum - n * total <= 2 * (10_000 * part) <= 2 * total * sum + n * total
    ensures var share := Share(amount, total);
      2 * total * (sum + share) - (n + 1) * total
        <= 2 * (10_000 * (part + amount))
        <= 2 * total * (sum + share) + (n + 1) * total
  {
    var share := Share(amount, total);
    RoundDivIsNearest(amount * 10_000, total, share);
    assert 2 * total * (sum + share) == 2 * total * sum + 2 * total * share;
    assert (n + 1) * total == n * total + total;
  }

  lemma {:induction false} RoundedTotal(amounts: seq<int>, n: nat, total: int)
    requires n <= |amounts| && total > 0
    ensures var sum := Total(seq(n, i requires 0 <= i < n => Share(amounts[i], total)));
      2 * total * sum - n * total <= 2 * (10_000 * Total(amounts[..n])) <= 2 * total * sum + n * total
    decreases n
  {
    var shares := seq(n, i requires 0 <= i < n => Share(amounts[i], total));
    if n > 0 {
      RoundedTotal(amounts, n - 1, total);
      var front := seq(n - 1, i requires 0 <= i < n - 1 => Share(amounts[i], total));
      assert shares[..n - 1] == front;
      assert amounts[..n][..n - 1] == amounts[..n - 1];
      RoundedOneMore(n - 1, total, Total(front), Total(amounts[..n - 1]), amounts[n - 1]);
    }
  }

  /** The shares of n venues with a positive total add up to the whole within n / 2 basis points. */
  lemma SharesNearlyAddUp(amounts: seq<int>)
    requires Total(amounts) > 0
    ensures -|amounts| <= 2 * (Total(Shares(amounts)) - 10_000) <= |amounts|
  {
    var n, total, sum := |amounts|, Total(amounts), Total(Shares(amounts));
    assert amounts[..n] == amounts;
    RoundedTotal(amounts, n, total);
    assert Shares(amounts) == seq(n, i requires 0 <= i < n => Share(amounts[i], total));
    WithinHalfEach(n, total, sum);
  }

  lemma WithinHalfEach(n: int, total: int, sum: int)
    requires n >= 0 && total > 0 && 2 * total * sum - n * total <= 2 * (10_000 * total) <= 2 * total * sum + n * total
    ensures -n <= 2 * (sum - 10_000) <= n
  {
    var d: int := 2 * (sum - 10_000);
    assert total * d == 2 * total * sum - 2 * (10_000 * total);
    assert total * (n + 1 - d) == n * total + total - total * d;
    assert total * (n + 1 + d) == n * total + total + total * d;
    PositiveFactor(total, n + 1 - d);
    PositiveFactor(total, n + 1 + d);
  }

  // ---------------------------------------------------------------- hourly buckets

  lemma {:induction false} NothingInOtherHours(flows: seq<Flow>, hour: int, k: Kind)
    requires hour !in Hours(flows)
    ensures SumIn(flows, hour, k) == 0
  {
    if flows != [] {
      NothingInOtherHours(flows[..|flows| - 1], hour, k);
    }
  }

  lemma {:induction false} HoursAreDistinct(flows: seq<Flow>)
    ensures forall i, j :: 0 <= i < j < |Hours(flows)| ==> Hours(flows)[i] != Hours(flows)[j]
    ensures forall i :: 0 <= i < |flows| ==> HourOf(flows[i].at) in Hours(flows)
  {
    if flows != [] {
      HoursAreDistinct(flows[..|flows| - 1]);
    }
  }

  /** What flowed one way from one instant until before another. */
  function FlowBetween(flows: seq<Flow>, from: int, until: int, k: Kind): int {
    if flows == [] then 0
    else
      var f := flows[|flows| - 1];
      FlowBetween(flows[..|flows| - 1], from, until, k) + if f.kind == k && from <= f.at < until then f.amount else 0
  }

  lemma {:induction false} SumInIsItsHour(flows: seq<Flow>, hour: int, k: Kind)
    requires hour % 3_600_000 == 0
    ensures SumIn(flows, hour, k) == FlowBetween(flows, hour, hour + 3_600_000, k)
  {
    if flows != [] {
      SumInIsItsHour(flows[..|flows| - 1], hour, k);
    }
  }

  lemma {:induction false} HoursAreWhole(flows: seq<Flow>, i: nat)
    requires i < |Hours(flows)|
    ensures Hours(flows)[i] % 3_600_000 == 0
  {
    if i < |Hours(flows[..|flows| - 1])| {
      HoursAreWhole(flows[..|flows| - 1], i);
    }
  }

  /** Each bucket starts on the hour and holds what flowed each way in the hour from then on. */
  lemma BucketHoldsItsHour(flows: seq<Flow>, i: nat)
    requires i < |TrendsOf(flows).hourly|
    ensures var b := TrendsOf(flows).hourly[i];
      && b.hour % 3_600_000 == 0
      && b.deposits == FlowBetween(flows, b.hour, b.hour + 3_600_000, Deposit)
      && b.withdrawals == FlowBetween(flows, b.hour, b.hour + 3_600_000, Withdrawal)
  {
    var b, hours := TrendsOf(flows).hourly[i], Hours(flows);
    SortMembers(hours, b.hour);
    var j :| 0 <= j < |hours| && hours[j] == b.hour;
    HoursAreWhole(flows, j);
    SumInIsItsHour(flows, b.hour, Deposit);
    SumInIsItsHour(flows, b.hour, Withdrawal);
  }

  /** The total of one column over some hours. */
  function Column(flows: seq<Flow>, hours: seq<int>, k: Kind): int {
    if hours == [] then 0 else SumIn(flows, hours[0], k) + Column(flows, hours[1..], k)
  }

  lemma {:induction false} OneMoreFlow(flows: seq<Flow>, f: Flow, hours: seq<int>, k: Kind)
    requires StrictlyAscending(hours)
    ensures Column(flows + [f], hours, k) ==
      Column(flows, hours, k) + if f.kind == k && HourOf(f.at) in hours then f.amount else 0
    decreases hours
  {
    assert (flows + [f])[..|flows|] == flows;
    if hours != [] {
      OneMoreFlow(flows, f, hours[1..], k);
      assert hours == [hours[0]] + hours[1..];
    }
  }

  lemma {:induction false} ColumnIsTotal(flows: seq<Flow>, hours: seq<int>, k: Kind)
    requires StrictlyAscending(hours) && forall i :: 0 <= i < |flows| ==> HourOf(flows[i].at) in hours
    ensures Column(flows, hours, k) == Sum(flows, k)
    decreases |flows|
  {
    if flows == [] {
      NoFlows(hours, k);
    } else {
      var front, f := flows[..|flows| - 1], flows[|flows| - 1];
      ColumnIsTotal(front, hours, k);
      OneMoreFlow(front, f, hours, k);
      assert flows == front + [f];
    }
  }

  lemma {:induction false} NoFlows(hours: seq<int>, k: Kind)
    ensures Column([], hours, k) == 0
  {
    if hours != [] {
      NoFlows(hours[1..], k);
    }
  }

  function BucketTotal(buckets: seq<Bucket>, k: Kind): int {
    if buckets == [] then 0
    else (if k.Deposit? then buckets[0].deposits else buckets[0].withdrawals) + BucketTotal(buckets[1..], k)
  }

  lemma {:induction false} BucketsAreColumns(flows: seq<Flow>, hours: seq<int>, k: Kind)
    ensures BucketTotal(HourlyOf(flows, hours), k) == Column(flows, hours, k)
    decreases hours
  {
    if hours != [] {
      assert HourlyOf(flows, hours)[1..] == HourlyOf(flows, hours[1..]);
      BucketsAreColumns(flows, hours[1..], k);
    }
  }

  /** The buckets are one per hour, oldest first, and add up to the totals. */
  lemma HourlyAddsUp(flows: seq<Flow>)
    ensures var t := TrendsOf(flows);
      && (forall i, j :: 0 <= i < j < |t.hourly| ==> t.hourly[i].hour < t.hourly[j].hour)
      && BucketTotal(t.hourly, Deposit) == t.deposits
      && BucketTotal(t.hourly, Withdrawal) == t.withdrawals
  {
    var hours := Sort(Hours(flows));
    HoursAreDistinct(flows);
    SortStrictly(Hours(flows));
    forall i | 0 <= i < |flows|
      ensures HourOf(flows[i].at) in hours
    {
      SortMembers(Hours(flows), HourOf(flows[i].at));
    }
    ColumnIsTotal(flows, hours, Deposit);
    ColumnIsTotal(flows, hours, Withdrawal);
    BucketsAreColumns(flows, hours, Deposit);
    BucketsAreColumns(flows, hours, Withdrawal);
  }

  // ---------------------------------------------------------------- alerts

  /** The last n rebalances failed, and the one before, if any, did not. */
  predicate FailsExactly(rebalances: seq<Rebalance>, n: nat) {
    && n <= |rebalances|
    && (forall i :: |rebalances| - n <= i < |rebalances| ==> !rebalances[i].success)
    && (n < |rebalances| ==> rebalances[|rebalances| - 1 - n].success)
  }

  lemma {:induction false} FailingSuffixIsExact(rebalances: seq<Rebalance>, n: nat)
    ensures FailingSuffix(rebalances) == n <==> FailsExactly(rebalances, n)
    decreases |rebalances|
  {
    if rebalances != [] && !rebalances[|rebalances| - 1].success && n > 0 {
      FailingSuffixIsExact(rebalances[..|rebalances| - 1], n - 1);
    }
  }

  lemma {:induction false} PeakIsHighest(values: seq<int>)
    requires forall i :: 0 <= i < |values| ==> 0 <= values[i]
    ensures 0 <= Observe(values).tvl <= Observe(values).peak
    ensures forall i :: 0 <= i < |values| ==> values[i] <= Observe(values).peak
    ensures Observe(values).peak > 0 ==> Observe(values).peak in values
  {
    if values != [] {
      PeakIsHighest(values[..|values| - 1]);
    }
  }

  /** After any nonnegative observations the drop from the peak is a proper share, and is full only at (about) zero. */
  lemma DropIsAShare(values: seq<int>)
    requires forall i :: 0 <= i < |values| ==> 0 <= values[i]
    ensures var s := Observe(values);
      && 0 <= DropBps(s.peak, s.tvl) <= 10_000
      && IsShare(DropBps(s.peak, s.tvl), s.peak - s.tvl, s.peak)
      && (s.tvl == 0 < s.peak ==> DropBps(s.peak, s.tvl) == 10_000)
      && (s.tvl == s.peak ==> DropBps(s.peak, s.tvl) == 0)
  {
    PeakIsHighest(values);
    var s := Observe(values);
    ShareIsNearest(s.peak - s.tvl, s.peak);
    if s.peak > 0 {
      RoundDivBetween((s.peak - s.tvl) * 10_000, s.peak, 0, 10_000);
      RoundDivIsNearest((s.peak - s.tvl) * 10_000, s.peak, if s.tvl == 0 then 10_000 else 0);
    }
  }

  ghost function Late(errors: seq<int>, since: int): set<int> { set i | 0 <= i < |errors| && since <= errors[i] }

  lemma {:induction false} ErrorsSinceCounts(errors: seq<int>, since: int)
    ensures ErrorsSince(errors, since) == |Late(errors, since)|
  {
    if errors == [] {
      assert Late(errors, since) == {};
    } else {
      var last := |errors| - 1;
      ErrorsSinceCounts(errors[..last], since);
      var before := Late(errors[..last], since);
      assert Late(errors, since) == if since <= errors[last] then before + {last} else before;
    }
  }

  lemma {:induction false} NoMoreErrorsThanRecorded(errors: seq<int>, since: int)
    ensures ErrorsSince(errors, since) <= |errors|
  {
    if errors != [] {
      NoMoreErrorsThanRecorded(errors[..|errors| - 1], since);
    }
  }

  /**
   * The errors of a window are divided by all the operations there ever were: the rate stays a proper share, but
   * goes to zero, whatever the window holds, exactly once the lifetime count exceeds twenty thousand per error.
   */
  lemma LifetimeCountHidesErrorsIff(errors: seq<int>, operations: nat, since: int)
    requires |errors| <= operations && operations > 0
    ensures 0 <= ErrorRateBps(ErrorsSince(errors, since), operations) <= 10_000
    ensures ErrorRateBps(ErrorsSince(errors, since), operations) == 0 <==>
      operations > 20_000 * ErrorsSince(errors, since)
  {
    var e := ErrorsSince(errors, since);
    NoMoreErrorsThanRecorded(errors, since);
    RoundDivBetween(e * 10_000, operations, 0, 10_000);
    RoundDivIsNearest(e * 10_000, operations, 0);
  }
}
