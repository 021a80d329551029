/** The pool's allocation target: depositors' strategies counted in batches, then averaged in basis points. */
module StrategyAllocation {
  import opened Prelude

  datatype Strategy = Conservative | Balanced | Growth

  /** How one depositor's query settles; the contract may have no entry. */
  datatype Settled = Fulfilled(strategy: Option<Strategy>) | Rejected

  datatype Counts = Counts(conservative: nat, balanced: nat, growth: nat) {
    function Total(): nat { conservative + balanced + growth }
  }

  const NONE := Counts(0, 0, 0)

  datatype Weights = Weights(blendBps: int, dexBps: int)

  function StrategyWeights(s: Strategy): Weights {
    match s
    case Conservative => Weights(10_000, 0)
    case Balanced => Weights(6_000, 4_000)
    case Growth => Weights(2_000, 8_000)
  }

  const DEFAULT_STRATEGY := Balanced

  /** Math.round(a / n): halves go up. */
  function RoundDiv(a: int, n: int): int
    requires n > 0
  {
    (2 * a + n) / (2 * n)
  }

  function WeightedBlend(c: Counts): int {
    c.conservative * StrategyWeights(Conservative).blendBps
    + c.balanced * StrategyWeights(Balanced).blendBps
    + c.growth * StrategyWeights(Growth).blendBps
  }

  function WeightedDex(c: Counts): int {
    c.conservative * StrategyWeights(Conservative).dexBps
    + c.balanced * StrategyWeights(Balanced).dexBps
    + c.growth * StrategyWeights(Growth).dexBps
  }

  function AggregateAllocation(c: Counts): Weights {
    if c.Total() == 0 then StrategyWeights(DEFAULT_STRATEGY)
    else Weights(RoundDiv(WeightedBlend(c), c.Total()), RoundDiv(WeightedDex(c), c.Total()))
  }

  // ---------------------------------------------------------------- rounding

  /** The rounded quotient is the nearest integer, and the upper one of two nearest. */
  lemma RoundDivIsNearest(a: int, n: int, q: int)
    requires n > 0
    ensures RoundDiv(a, n) == q <==> 2 * n * q - n <= 2 * a < 2 * n * q + n
  {
    var x, m, p := 2 * a + n, 2 * n, RoundDiv(a, n);
    assert m * p <= x < m * (p + 1);
    if m * q <= x < m * (q + 1) {
      SameQuotient(x, m, p, q);
    }
  }

  lemma SameQuotient(x: int, m: int, p: int, q: int)
    requires m > 0 && m * p <= x < m * (p + 1) && m * q <= x < m * (q + 1)
    ensures p == q
  {
    PositiveFactor(m, q + 1 - p);
    PositiveFactor(m, p + 1 - q);
  }

  lemma PositiveFactor(m: int, d: int)
    requires m > 0 && m * d > 0
    ensures d > 0
  {
  }

  /** r is a / n to the nearest integer, halves up. */
  predicate Nearest(r: int, a: int, n: int) { 2 * n * r - n <= 2 * a < 2 * n * r + n }

  /**
   * Each target is the average over all depositors, to the nearest basis point: a conservative one counts 100 % for
   * Blend, a balanced one 60 % and a growth one 20 %, the rest going to the exchange. With nobody it is 60 to 40.
   */
  lemma TargetIsTheAverage(c: Counts)
    ensures var w, n := AggregateAllocation(c), c.conservative + c.balanced + c.growth;
      if n == 0 then w.blendBps == 6_000 && w.dexBps == 4_000
      else
        && Nearest(w.blendBps, 10_000 * c.conservative + 6_000 * c.balanced + 2_000 * c.growth, n)
        && Nearest(w.dexBps, 4_000 * c.balanced + 8_000 * c.growth, n)
  {
    if c.Total() > 0 {
      RoundDivIsNearest(WeightedBlend(c), c.Total(), AggregateAllocation(c).blendBps);
      RoundDivIsNearest(WeightedDex(c), c.Total(), AggregateAllocation(c).dexBps);
    }
  }

  /** The exact average share of the exchange lies halfway between two basis points. */
  predicate HalfTie(c: Counts) {
    c.Total() > 0 && (2 * WeightedDex(c)) % (2 * c.Total()) == c.Total()
  }

  /** Two complementary averages of a total of w per head, both rounded half up. */
  lemma ComplementaryRounding(a: int, n: int, w: int)
    requires n > 0
    ensures RoundDiv(a, n) + RoundDiv(w * n - a, n) == w + if (2 * a) % (2 * n) == n then 1 else 0
  {
    var m := 2 * n;
    var q, r := (2 * a) / m, (2 * a) % m;
    assert 2 * a == m * q + r && 0 <= r < m;
    assert 2 * (w * n - a) == m * (w - q) - r;
    assert m * (q + 1) == m * q + m && m * (w - q - 1) == m * (w - q) - m;
    assert 2 * n * q == m * q && 2 * n * (q + 1) == m * (q + 1);
    assert 2 * n * (w - q) == m * (w - q) && 2 * n * (w - q - 1) == m * (w - q - 1);
    RoundDivIsNearest(a, n, if r < n then q else q + 1);
    RoundDivIsNearest(w * n - a, n, if r <= n then w - q else w - q - 1);
  }

  /** The two targets add up to everything, except that a half tie adds one basis point too many. */
  lemma SharesAddUpIff(c: Counts)
    ensures var w := AggregateAllocation(c);
      w.blendBps + w.dexBps == if HalfTie(c) then 10_001 else 10_000
  {
    if c.Total() > 0 {
      ComplementaryRounding(WeightedDex(c), c.Total(), 10_000);
      assert WeightedBlend(c) == 10_000 * c.Total() - WeightedDex(c);
    }
  }

  lemma RoundDivBetween(a: int, n: int, lo: int, hi: int)
    requires n > 0 && lo * n <= a <= hi * n
    ensures lo <= RoundDiv(a, n) <= hi
  {
    var q := RoundDiv(a, n);
    RoundDivIsNearest(a, n, q);
    assert 2 * n * (hi + 1 - q) == 2 * (hi * n) + 2 * n - 2 * n * q;
    assert 2 * n * (q + 1 - lo) == 2 * n * q + 2 * n - 2 * (lo * n);
    PositiveFactor(2 * n, hi + 1 - q);
    PositiveFactor(2 * n, q + 1 - lo);
  }

  lemma SharesInRange(c: Counts)
    ensures var w := AggregateAllocation(c);
      2_000 <= w.blendBps <= 10_000 && 0 <= w.dexBps <= 8_000
  {
    if c.Total() > 0 {
      RoundDivBetween(WeightedBlend(c), c.Total(), 2_000, 10_000);
      RoundDivBetween(WeightedDex(c), c.Total(), 0, 8_000);
    }
  }

  /** An odd factor takes no power of two. */
  lemma Halve(n: int, q: int, m: int)
    requires n * (2 * q + 1) == 2 * m
    ensures n % 2 == 0 && (n / 2) * (2 * q + 1) == m
  {
    assert n * (2 * q + 1) == 2 * (n * q) + n;
    assert n == 2 * (m - n * q);
    var h := n / 2;
    assert n == 2 * h;
    assert (2 * h) * (2 * q + 1) == 2 * (h * (2 * q + 1));
  }

  lemma HalveThrice(n: int, q: int, m: int)
    requires n * (2 * q + 1) == 8 * m
    ensures n % 8 == 0 && (n / 8) * (2 * q + 1) == m
  {
    Halve(n, q, 4 * m);
    Halve(n / 2, q, 2 * m);
    Halve(n / 2 / 2, q, m);
    assert n / 2 / 2 / 2 == n / 8;
  }

  lemma OddShareOf8000(n: int, q: int, k: int)
    requires n * (2 * q + 1) == 8_000 * k
    ensures n % 64 == 0
  {
    assert 8_000 * k == 8 * (1_000 * k) && 1_000 * k == 8 * (125 * k);
    HalveThrice(n, q, 1_000 * k);
    HalveThrice(n / 8, q, 125 * k);
    assert n == 8 * (n / 8);
  }

  lemma TieMeansMultipleOf64(c: Counts)
    requires HalfTie(c)
    ensures c.Total() % 64 == 0
  {
    var n, x := c.Total(), 2 * WeightedDex(c);
    var q := x / (2 * n);
    assert x == (2 * n) * q + n;
    assert (2 * n) * q + n == n * (2 * q + 1);
    OddShareOf8000(n, q, c.balanced + 2 * c.growth);
  }

  ghost predicate CanTie(n: nat) {
    exists c: Counts :: c.Total() == n && HalfTie(c)
  }

  /** Some mix of n depositors makes the targets add up to 10001 exactly when n is a positive multiple of 64. */
  lemma CanTieIff(n: nat)
    ensures CanTie(n) <==> n > 0 && n % 64 == 0
  {
    if c: Counts :| c.Total() == n && HalfTie(c) {
      TieMeansMultipleOf64(c);
    }
    if n > 0 && n % 64 == 0 {
      var m := n / 64;
      var c := Counts(63 * m, m, 0);
      assert 2 * WeightedDex(c) == (2 * c.Total()) * 62 + c.Total();
      RemainderIs(2 * WeightedDex(c), 2 * c.Total(), 62, c.Total());
    }
  }

  lemma RemainderIs(x: int, m: int, q: int, r: int)
    requires 0 <= r < m && x == m * q + r
    ensures x % m == r
  {
    assert m * (x / m) <= x < m * (x / m + 1);
    SameQuotient(x, m, x / m, q);
  }

  // ---------------------------------------------------------------- counting

  function Choice(s: Settled): Strategy {
    if s.Fulfilled? && s.strategy.Some? then s.strategy.value else DEFAULT_STRATEGY
  }

  function CountOne(c: Counts, s: Strategy): Counts {
    match s
    case Conservative => c.(conservative := c.conservative + 1)
    case Balanced => c.(balanced := c.balanced + 1)
    case Growth => c.(growth := c.growth + 1)
  }

  /** One pass over all depositors. */
  function Tally(all: seq<Settled>): Counts {
    if all == [] then NONE else CountOne(Tally(all[..|all| - 1]), Choice(all[|all| - 1]))
  }

  lemma {:induction false} EverybodyIsCounted(all: seq<Settled>)
    ensures Tally(all).conservative + Tally(all).balanced + Tally(all).growth == |all|
  {
    if all != [] {
      EverybodyIsCounted(all[..|all| - 1]);
    }
  }

  lemma OneMoreOf(all: seq<Settled>, x: Settled)
    requires all != []
    ensures multiset(all)[x] == multiset(all[..|all| - 1])[x] + if all[|all| - 1] == x then 1 else 0
  {
    assert all == all[..|all| - 1] + [all[|all| - 1]];
  }

  lemma {:induction false} StatedPreferencesCount(all: seq<Settled>)
    ensures Tally(all).conservative == multiset(all)[Fulfilled(Some(Conservative))]
    ensures Tally(all).growth == multiset(all)[Fulfilled(Some(Growth))]
  {
    if all != [] {
      StatedPreferencesCount(all[..|all| - 1]);
      OneMoreOf(all, Fulfilled(Some(Conservative)));
      OneMoreOf(all, Fulfilled(Some(Growth)));
    }
  }

  /** A stated preference counts as stated; everybody else, unset or failed, counts as balanced. */
  lemma EveryDepositorCountsOnce(all: seq<Settled>)
    ensures var c, stated := Tally(all), multiset(all);
      && c.conservative == stated[Fulfilled(Some(Conservative))]
      && c.growth == stated[Fulfilled(Some(Growth))]
      && c.balanced == |all| - c.conservative - c.growth
  {
    EverybodyIsCounted(all);
    StatedPreferencesCount(all);
  }

  lemma TallyOneMore(before: seq<Settled>, all: seq<Settled>, n: nat)
    requires n < |all|
    ensures Tally(before + all[..n + 1]) == CountOne(Tally(before + all[..n]), Choice(all[n]))
  {
    var longer := before + all[..n + 1];
    assert longer[..|longer| - 1] == before + all[..n];
  }

  function Percentage(n: nat, total: nat): int {
    if total > 0 then RoundDiv(n * 10_000, total) else 0
  }

  /** Percentages are in hundredths. */
  datatype Distribution = Distribution(
    total: nat, counts: Counts, conservativePct: int, balancedPct: int, growthPct: int, aggregate: Weights)

  function DistributionOf(c: Counts): Distribution {
    Distribution(c.Total(), c,
      Percentage(c.conservative, c.Total()), Percentage(c.balanced, c.Total()), Percentage(c.growth, c.Total()),
      AggregateAllocation(c))
  }

  /** Batch by batch, for any positive batch size: the distribution is that of a single pass. */
  method AggregateStrategyPreferences(depositors: seq<Settled>, batchSize: nat) returns (d: Distribution)
    requires batchSize > 0
    ensures d == DistributionOf(Tally(depositors)) && d.total == |depositors|
  {
    var counts := CountStrategies(depositors, batchSize);
    EverybodyIsCounted(depositors);
    d := DistributionOf(counts);
  }

  method CountStrategies(depositors: seq<Settled>, batchSize: nat) returns (counts: Counts)
    requires batchSize > 0
    ensures counts == Tally(depositors)
  {
    counts := NONE;
    var i := 0;
    while i < |depositors|
      invariant 0 <= i
      invariant counts == Tally(depositors[..Min(i, |depositors|)])
    {
      var end := Min(i + batchSize, |depositors|);
      assert depositors[..end] == depositors[..i] + depositors[i..end];
      counts := CountBatch(depositors[..i], counts, depositors[i..end]);
      i := i + batchSize;
    }
    assert depositors[..|depositors|] == depositors;
  }

  method CountBatch(ghost before: seq<Settled>, counts: Counts, results: seq<Settled>) returns (after: Counts)
    requires counts == Tally(before)
    ensures after == Tally(before + results)
  {
    after := counts;
    var j := 0;
    assert before + results[..0] == before;
    while j < |results|
      invariant 0 <= j <= |results|
      invariant after == Tally(before + results[..j])
    {
      TallyOneMore(before, results, j);
      if results[j].Fulfilled? {
        var strategy := if results[j].strategy.Some? then results[j].strategy.value else DEFAULT_STRATEGY;
        after := CountOne(after, strategy);
      } else {
        after := after.(balanced := after.balanced + 1);
      }
      j := j + 1;
    }
    assert results[..j] == results;
  }

  /** Each percentage is its own strategy's share to the nearest hundredth; together they miss 100 by 0.01 at most. */
  lemma PercentagesNearlyAddUp(c: Counts)
    requires c.Total() > 0
    ensures var d, n := DistributionOf(c), c.conservative + c.balanced + c.growth;
      && d.total == n && d.counts == c && d.aggregate == AggregateAllocation(c)
      && Nearest(d.conservativePct, 10_000 * c.conservative, n)
      && Nearest(d.balancedPct, 10_000 * c.balanced, n)
      && Nearest(d.growthPct, 10_000 * c.growth, n)
      && 9_999 <= d.conservativePct + d.balancedPct + d.growthPct <= 10_001
  {
    var d, n := DistributionOf(c), c.Total();
    Near(c.conservative, n);
    Near(c.balanced, n);
    Near(c.growth, n);
    NearlyWhole(n, d.conservativePct, d.balancedPct, d.growthPct);
  }

  lemma Near(k: nat, n: nat)
    requires n > 0
    ensures Nearest(Percentage(k, n), 10_000 * k, n)
  {
    RoundDivIsNearest(k * 10_000, n, Percentage(k, n));
  }

  lemma NearlyWhole(n: int, a: int, b: int, c: int)
    requires n > 0
    requires 2 * n * a + 2 * n * b + 2 * n * c - 3 * n <= 20_000 * n <= 2 * n * a + 2 * n * b + 2 * n * c + 3 * n
    ensures 9_999 <= a + b + c <= 10_001
  {
    var d := a + b + c - 10_000;
    assert 2 * n * d == 2 * n * a + 2 * n * b + 2 * n * c - 20_000 * n;
    assert 2 * n * (2 - d) == 4 * n - 2 * n * d && 2 * n * (2 + d) == 4 * n + 2 * n * d;
    PositiveFactor(2 * n, 2 - d);
    PositiveFactor(2 * n, 2 + d);
  }
}
