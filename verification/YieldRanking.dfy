/** Which protocol a yield check moves the funds to, from APY fetches that complete in any order. */
module YieldRanking {
  import opened Prelude

  datatype Yield = Yield(
    protocolId: string,
    currentApy: real,
    historicalApy7d: real,
    historicalApy30d: real,
    tvlUsdc: real,
    volatility: real,
    riskScore: real,
    fetchedAt: Option<int>)

  datatype Config = Config(minImprovement: real, riskFree: real, slippageBps: real, maxApyAgeMs: int)

  const MAX_APY_DECIMAL := 10.0

  // ---------------------------------------------------------------- collecting the observations

  /** A fetch that has completed: which protocol it was for, and what it gave (None when it failed or timed out). */
  datatype Fetch = Fetch(id: string, data: Option<Yield>)

  predicate IsUsableApy(y: Yield, expected: string, now: int, maxAgeMs: int) {
    && y.protocolId == expected
    && 0.0 <= y.currentApy <= MAX_APY_DECIMAL
    && 0.0 <= y.historicalApy7d <= MAX_APY_DECIMAL
    && 0.0 <= y.historicalApy30d <= MAX_APY_DECIMAL
    && 0.0 <= y.tvlUsdc
    && 0.0 <= y.volatility && !(0.0 < y.volatility < 0.000000000001)
    && 1.0 <= y.riskScore <= 100.0
    && (y.fetchedAt.None? || -60_000 <= now - y.fetchedAt.value <= maxAgeMs)
  }

  predicate Usable(f: Fetch, now: int, maxAgeMs: int) {
    f.data.Some? && IsUsableApy(f.data.value, f.id, now, maxAgeMs)
  }

  /** Each fetch pushes its own observation when it completes: the order is the order of completion. */
  function Collect(fetches: seq<Fetch>, now: int, maxAgeMs: int): seq<Yield> {
    if fetches == [] then []
    else if Usable(fetches[0], now, maxAgeMs) then [fetches[0].data.value] + Collect(fetches[1..], now, maxAgeMs)
    else Collect(fetches[1..], now, maxAgeMs)
  }

  predicate OneFetchEach(fetches: seq<Fetch>) {
    forall i, j :: 0 <= i < j < |fetches| ==> fetches[i].id != fetches[j].id
  }

  predicate DistinctProtocols(ys: seq<Yield>) {
    forall i, j :: 0 <= i < j < |ys| ==> ys[i].protocolId != ys[j].protocolId
  }

  /** A fetch for y's own protocol gave y, with every rate from 0 to 1000 %, and observed within the age allowed. */
  ghost predicate ComesFrom(y: Yield, fetches: seq<Fetch>, now: int, maxAgeMs: int) {
    && Fetch(y.protocolId, Some(y)) in fetches
    && 0.0 <= y.currentApy <= 10.0 && 0.0 <= y.historicalApy7d <= 10.0 && 0.0 <= y.historicalApy30d <= 10.0
    && 0.0 <= y.tvlUsdc && 1.0 <= y.riskScore <= 100.0
    && (y.volatility == 0.0 || 1.0 <= y.volatility * 1_000_000_000_000.0)
    && (y.fetchedAt.Some? ==> y.fetchedAt.value <= now + 60_000 && now <= y.fetchedAt.value + maxAgeMs)
  }

  lemma {:induction false} CollectMembers(fetches: seq<Fetch>, now: int, maxAgeMs: int, y: Yield)
    ensures y in Collect(fetches, now, maxAgeMs) <==> ComesFrom(y, fetches, now, maxAgeMs)
  {
    if fetches != [] {
      CollectMembers(fetches[1..], now, maxAgeMs, y);
      assert fetches == [fetches[0]] + fetches[1..];
      assert forall f :: f in fetches <==> f == fetches[0] || f in fetches[1..];
      assert Usable(fetches[0], now, maxAgeMs) && fetches[0].data.value == y
        <==> fetches[0] == Fetch(y.protocolId, Some(y)) && ComesFrom(y, [fetches[0]], now, maxAgeMs);
    }
  }

  lemma {:induction false} CollectedProtocolsAreDistinct(fetches: seq<Fetch>, now: int, maxAgeMs: int)
    requires OneFetchEach(fetches)
    ensures DistinctProtocols(Collect(fetches, now, maxAgeMs))
  {
    if fetches != [] {
      var rest := Collect(fetches[1..], now, maxAgeMs);
      CollectedProtocolsAreDistinct(fetches[1..], now, maxAgeMs);
      forall y | y in rest
        ensures y.protocolId != fetches[0].id
      {
        CollectMembers(fetches[1..], now, maxAgeMs, y);
      }
    }
  }

  // ---------------------------------------------------------------- the ranking

  /** What the ranking compares; the score is in hundredths. */
  datatype Opportunity = Opportunity(protocolId: string, netApy: real, score: int)

  /** Math.round: halves go up. */
  function Round(x: real): int { (x + 0.5).Floor }

  function SharpeRatio(apy: real, volatility: real, riskFree: real): real {
    if volatility <= 0.0 then apy / 0.01 else (apy - riskFree) / volatility
  }

  function Assess(y: Yield, riskFree: real): Opportunity {
    var riskPenalty := (100.0 - y.riskScore) / 100.0;
    Opportunity(y.protocolId, y.currentApy, Round(SharpeRatio(y.currentApy, y.volatility, riskFree) * riskPenalty * 100.0))
  }

  /**
   * The score is the nearest hundredth, halves up, of the excess yield per volatility, or without volatility of a
   * hundred times the yield, less the share lost to risk.
   */
  lemma ScoreIsNearest(y: Yield, riskFree: real)
    ensures var o := Assess(y, riskFree);
      var gain := if y.volatility > 0.0 then (y.currentApy - riskFree) / y.volatility else 100.0 * y.currentApy;
      && o.protocolId == y.protocolId && o.netApy == y.currentApy
      && o.score as real - 0.5 <= gain * (100.0 - y.riskScore) < o.score as real + 0.5
  {
    var sharpe := SharpeRatio(y.currentApy, y.volatility, riskFree);
    RoundIsNearest(sharpe * ((100.0 - y.riskScore) / 100.0) * 100.0);
    PenaltyInPercent(sharpe, 100.0 - y.riskScore);
    assert y.volatility <= 0.0 ==> sharpe == 100.0 * y.currentApy;
  }

  lemma RoundIsNearest(x: real)
    ensures Round(x) as real - 0.5 <= x < Round(x) as real + 0.5
  {
  }

  lemma PenaltyInPercent(sharpe: real, percent: real)
    ensures sharpe * (percent / 100.0) * 100.0 == sharpe * percent
  {
    var share := percent / 100.0;
    assert share * 100.0 == percent;
    assert sharpe * share * 100.0 == sharpe * (share * 100.0);
  }

  function AssessAll(ys: seq<Yield>, riskFree: real): (os: seq<Opportunity>)
    ensures |os| == |ys| && forall i :: 0 <= i < |ys| ==> os[i] == Assess(ys[i], riskFree)
  {
    seq(|ys|, i requires 0 <= i < |ys| => Assess(ys[i], riskFree))
  }

  /** Behind everything that scores at least as much: a stable descending sort, one element at a time. */
  function Insert(ranked: seq<Opportunity>, o: Opportunity): seq<Opportunity> {
    if ranked == [] || ranked[0].score < o.score then [o] + ranked
    else [ranked[0]] + Insert(ranked[1..], o)
  }

  function Sorted(os: seq<Opportunity>): seq<Opportunity> {
    if os == [] then [] else Insert(Sorted(os[..|os| - 1]), os[|os| - 1])
  }

  function Best(os: seq<Opportunity>): Option<Opportunity> {
    if Sorted(os) == [] then None else Some(Sorted(os)[0])
  }

  predicate Descending(os: seq<Opportunity>) {
    forall i, j :: 0 <= i < j < |os| ==> os[j].score <= os[i].score
  }

  lemma {:induction false} InsertKeepsContents(ranked: seq<Opportunity>, o: Opportunity)
    ensures multiset(Insert(ranked, o)) == multiset(ranked) + multiset{o}
  {
    if ranked != [] {
      InsertKeepsContents(ranked[1..], o);
      assert ranked == [ranked[0]] + ranked[1..];
    }
  }

  lemma InsertedIsOldOrNew(ranked: seq<Opportunity>, o: Opportunity, x: Opportunity)
    requires x in Insert(ranked, o)
    ensures x == o || x in ranked
  {
    InsertKeepsContents(ranked, o);
    assert x in multiset(Insert(ranked, o));
  }

  lemma {:induction false} InsertKeepsOrder(ranked: seq<Opportunity>, o: Opportunity)
    requires Descending(ranked)
    ensures Descending(Insert(ranked, o))
  {
    if ranked != [] && ranked[0].score >= o.score {
      var rest := Insert(ranked[1..], o);
      InsertKeepsOrder(ranked[1..], o);
      forall i | 0 <= i < |rest|
        ensures rest[i].score <= ranked[0].score
      {
        InsertedIsOldOrNew(ranked[1..], o, rest[i]);
      }
    }
  }

  lemma {:induction false} SortedKeepsContents(os: seq<Opportunity>)
    ensures multiset(Sorted(os)) == multiset(os)
  {
    if os != [] {
      var front, last := os[..|os| - 1], os[|os| - 1];
      SortedKeepsContents(front);
      InsertKeepsContents(Sorted(front), last);
      assert os == front + [last];
    }
  }

  lemma {:induction false} SortedDescends(os: seq<Opportunity>)
    ensures Descending(Sorted(os))
  {
    if os != [] {
      SortedDescends(os[..|os| - 1]);
      InsertKeepsOrder(Sorted(os[..|os| - 1]), os[|os| - 1]);
    }
  }

  /** The ranking is the observations, by descending score. */
  lemma SortedSorts(os: seq<Opportunity>)
    ensures Descending(Sorted(os)) && multiset(Sorted(os)) == multiset(os)
  {
    SortedDescends(os);
    SortedKeepsContents(os);
  }

  predicate FirstTopAt(os: seq<Opportunity>, k: nat) {
    && k < |os|
    && (forall j :: 0 <= j < |os| ==> os[j].score <= os[k].score)
    && (forall j :: 0 <= j < k ==> os[j].score < os[k].score)
  }

  /** The best opportunity is the first top score in order of arrival. */
  lemma {:induction false} BestIsFirstTop(os: seq<Opportunity>) returns (k: nat)
    requires os != []
    ensures FirstTopAt(os, k) && Best(os) == Some(os[k])
  {
    var n := |os| - 1;
    if n == 0 {
      assert Sorted(os[..0]) == [];
      k := 0;
    } else {
      k := BestIsFirstTop(os[..n]);
      assert os[..n][k] == os[k];
      assert forall j :: 0 <= j < n ==> os[..n][j] == os[j];
      k := if os[k].score < os[n].score then n else k;
    }
  }

  ghost predicate IsTop(o: Opportunity, os: seq<Opportunity>) {
    o in os && forall x :: x in os ==> x.score <= o.score
  }

  /** The top score is reached by one opportunity only. */
  ghost predicate UniqueTop(os: seq<Opportunity>) {
    forall a, b :: IsTop(a, os) && IsTop(b, os) ==> a == b
  }

  ghost predicate SameMembers<T(!new)>(a: seq<T>, b: seq<T>) {
    forall x :: x in a <==> x in b
  }

  lemma PermutationsHaveSameMembers<T(!new)>(a: seq<T>, b: seq<T>)
    requires multiset(a) == multiset(b)
    ensures SameMembers(a, b)
  {
    forall x
      ensures x in a <==> x in b
    {
      assert x in a <==> x in multiset(a);
      assert x in b <==> x in multiset(b);
    }
  }

  lemma BothEmptyOrNeither<T(!new)>(a: seq<T>, b: seq<T>)
    requires SameMembers(a, b)
    ensures a == [] <==> b == []
  {
    if a != [] {
      assert a[0] in b;
    }
    if b != [] {
      assert b[0] in a;
    }
  }

  lemma SameBest(a: seq<Opportunity>, b: seq<Opportunity>)
    requires UniqueTop(a) && SameMembers(a, b)
    ensures Best(a) == Best(b)
  {
    BothEmptyOrNeither(a, b);
    if a != [] {
      var i := BestIsFirstTop(a);
      var j := BestIsFirstTop(b);
      assert b[j] in a;
      assert IsTop(a[i], a) && IsTop(b[j], a);
    }
  }

  ghost predicate OrderDoesNotMatter(os: seq<Opportunity>) {
    forall other: seq<Opportunity> :: multiset(other) == multiset(os) ==> Best(other) == Best(os)
  }

  function MoveToFront(os: seq<Opportunity>, i: nat): seq<Opportunity>
    requires i < |os|
  {
    [os[i]] + os[..i] + os[i + 1..]
  }

  /** A top score that arrives first is picked. */
  lemma FirstArrivalIsPicked(os: seq<Opportunity>, i: nat)
    requires i < |os| && IsTop(os[i], os)
    ensures multiset(MoveToFront(os, i)) == multiset(os)
    ensures Best(MoveToFront(os, i)) == Some(os[i])
  {
    var moved := MoveToFront(os, i);
    assert os == os[..i] + [os[i]] + os[i + 1..];
    PermutationsHaveSameMembers(moved, os);
    var k := BestIsFirstTop(moved);
    assert moved[k] in os;
    assert moved[0] == os[i];
  }

  /** The protocol picked does not depend on the order of completion exactly when no two top scores tie. */
  lemma TargetIndependentOfOrderIff(os: seq<Opportunity>)
    ensures OrderDoesNotMatter(os) <==> UniqueTop(os)
  {
    if UniqueTop(os) {
      forall other: seq<Opportunity> | multiset(other) == multiset(os)
        ensures Best(other) == Best(os)
      {
        PermutationsHaveSameMembers(os, other);
        SameBest(os, other);
      }
    }
    if OrderDoesNotMatter(os) {
      forall a, b | IsTop(a, os) && IsTop(b, os)
        ensures a == b
      {
        var i :| 0 <= i < |os| && os[i] == a;
        var j :| 0 <= j < |os| && os[j] == b;
        FirstArrivalIsPicked(os, i);
        FirstArrivalIsPicked(os, j);
      }
    }
  }

  // ---------------------------------------------------------------- the decision

  datatype Decision =
    | InvalidPosition
    | InvalidCooldown
    | CooldownActive(remaining: int)
    | NoApyData
    | CurrentUnavailable
    | AlreadyOnBest
    | BelowThreshold
    | InvalidBounds
    | Rebalance(target: string, expectedApy: real, minOut: int)

  predicate SafeInteger(x: int) { -MAX_SAFE_INTEGER <= x <= MAX_SAFE_INTEGER }

  /** Where the funds are, and the contract's cooldown state. */
  datatype Vault = Vault(protocol: string, deployed: int, cooldown: int, lastRebalance: int, ledger: int)

  function FindProtocol(ys: seq<Yield>, id: string): Option<Yield> {
    if ys == [] then None else if ys[0].protocolId == id then Some(ys[0]) else FindProtocol(ys[1..], id)
  }

  function ShouldRebalance(currentApy: real, targetApy: real, c: Config): bool {
    targetApy - currentApy >= c.minImprovement
  }

  function MinOut(deployed: int, slippageBps: real): int {
    (deployed as real * (1.0 - slippageBps / 10000.0)).Floor
  }

  function Move(best: Opportunity, deployed: int, c: Config): Decision {
    var minOut := MinOut(deployed, c.slippageBps);
    if minOut > MAX_SAFE_INTEGER || minOut <= 0 || c.slippageBps < 0.0 || c.slippageBps >= 10000.0 then InvalidBounds
    else Rebalance(best.protocolId, best.netApy, minOut)
  }

  /** Steps 4 to 6 of a check, on the usable observations in order of arrival. */
  function Decide(ys: seq<Yield>, current: string, deployed: int, c: Config): Decision {
    if ys == [] then NoApyData
    else
      var now := FindProtocol(ys, current);
      var best := Best(AssessAll(ys, c.riskFree));
      if now.None? || best.None? then CurrentUnavailable
      else if best.value.protocolId == current then AlreadyOnBest
      else if !ShouldRebalance(now.value.currentApy, best.value.netApy, c) then BelowThreshold
      else Move(best.value, deployed, c)
  }

  function Check(fetches: seq<Fetch>, v: Vault, now: int, c: Config): Decision {
    if v.protocol == "" || !SafeInteger(v.deployed) || v.deployed <= 0 then InvalidPosition
    else if !SafeInteger(v.cooldown) || v.cooldown < 0 then InvalidCooldown
    else if !SafeInteger(v.lastRebalance) || v.lastRebalance < 0 then InvalidCooldown
    else if !SafeInteger(v.ledger) || v.ledger < v.lastRebalance then InvalidCooldown
    else if v.cooldown > 0 && v.ledger - v.lastRebalance < v.cooldown then
      CooldownActive(v.cooldown - (v.ledger - v.lastRebalance))
    else Decide(Collect(fetches, now, c.maxApyAgeMs), v.protocol, v.deployed, c)
  }

  lemma {:induction false} FindFinds(ys: seq<Yield>, id: string)
    ensures FindProtocol(ys, id).None? ==> forall y :: y in ys ==> y.protocolId != id
    ensures FindProtocol(ys, id).Some? ==> FindProtocol(ys, id).value in ys && FindProtocol(ys, id).value.protocolId == id
  {
    if ys != [] {
      FindFinds(ys[1..], id);
      assert ys == [ys[0]] + ys[1..];
    }
  }

  lemma SameFound(ys: seq<Yield>, zs: seq<Yield>, id: string)
    requires DistinctProtocols(ys) && SameMembers(ys, zs)
    ensures FindProtocol(ys, id) == FindProtocol(zs, id)
  {
    FindFinds(ys, id);
    FindFinds(zs, id);
    if FindProtocol(zs, id).Some? {
      assert FindProtocol(zs, id).value in ys;
    }
  }

  lemma SameAssessments(ys: seq<Yield>, zs: seq<Yield>, riskFree: real)
    requires SameMembers(ys, zs)
    ensures SameMembers(AssessAll(ys, riskFree), AssessAll(zs, riskFree))
  {
    forall o
      ensures o in AssessAll(ys, riskFree) <==> o in AssessAll(zs, riskFree)
    {
      AssessedMembers(ys, riskFree, o);
      AssessedMembers(zs, riskFree, o);
    }
  }

  lemma AssessedMembers(ys: seq<Yield>, riskFree: real, o: Opportunity)
    ensures o in AssessAll(ys, riskFree) <==> exists y :: y in ys && Assess(y, riskFree) == o
  {
    var os := AssessAll(ys, riskFree);
    if o in os {
      var i :| 0 <= i < |os| && os[i] == o;
      assert ys[i] in ys;
    }
    if y :| y in ys && Assess(y, riskFree) == o {
      var i :| 0 <= i < |ys| && ys[i] == y;
      assert os[i] == o;
    }
  }

  lemma SameCollected(a: seq<Fetch>, b: seq<Fetch>, now: int, maxAgeMs: int)
    requires multiset(a) == multiset(b)
    ensures SameMembers(Collect(a, now, maxAgeMs), Collect(b, now, maxAgeMs))
  {
    PermutationsHaveSameMembers(a, b);
    forall y
      ensures y in Collect(a, now, maxAgeMs) <==> y in Collect(b, now, maxAgeMs)
    {
      CollectMembers(a, now, maxAgeMs, y);
      CollectMembers(b, now, maxAgeMs, y);
    }
  }

  /**
   * One fetch per registered protocol, completing in any order, some failing or giving stale data: the whole decision
   * is the same for every order of completion unless two protocols tie for the top rounded score.
   */
  lemma DecisionIndependentOfCompletionOrder(
    fetches: seq<Fetch>, other: seq<Fetch>, v: Vault, now: int, c: Config)
    requires OneFetchEach(fetches) && multiset(other) == multiset(fetches)
    requires UniqueTop(AssessAll(Collect(fetches, now, c.maxApyAgeMs), c.riskFree))
    ensures Check(other, v, now, c) == Check(fetches, v, now, c)
  {
    var ys := Collect(fetches, now, c.maxApyAgeMs);
    var zs := Collect(other, now, c.maxApyAgeMs);
    SameCollected(fetches, other, now, c.maxApyAgeMs);
    CollectedProtocolsAreDistinct(fetches, now, c.maxApyAgeMs);
    SameFound(ys, zs, v.protocol);
    SameAssessments(ys, zs, c.riskFree);
    SameBest(AssessAll(ys, c.riskFree), AssessAll(zs, c.riskFree));
    BothEmptyOrNeither(ys, zs);
  }

  lemma MinOutBounds(deployed: nat, slippageBps: real)
    requires 0.0 <= slippageBps < 10000.0
    ensures MinOut(deployed, slippageBps) <= deployed
    ensures deployed as real * (1.0 - slippageBps / 10000.0) - 1.0 < MinOut(deployed, slippageBps) as real
  {
    var d, t := deployed as real, slippageBps / 10000.0;
    assert d * t >= 0.0;
    assert d * (1.0 - t) == d - d * t;
  }

  /** What a rebalance rests on: `best` is the target's observation and `now` the current protocol's. */
  ghost predicate Justifies(best: Yield, now: Yield, ys: seq<Yield>, current: string, d: Decision, c: Config)
    requires d.Rebalance?
  {
    && best in ys && now in ys
    && best.protocolId == d.target && best.currentApy == d.expectedApy
    && now.protocolId == current
    && d.target != current
    && best.currentApy - now.currentApy >= c.minImprovement
    && (forall y :: y in ys ==> Assess(y, c.riskFree).score <= Assess(best, c.riskFree).score)
  }

  /**
   * A rebalance goes to a fresh, well-formed observation with a top score that beats the current one by the
   * threshold, asks for no more than is deployed and no less than the slippage allows, and waits out the cooldown.
   */
  lemma RebalanceIsJustified(fetches: seq<Fetch>, v: Vault, now: int, c: Config)
      returns (best: Yield, held: Yield)
    requires Check(fetches, v, now, c).Rebalance?
    ensures var d := Check(fetches, v, now, c);
      && Justifies(best, held, Collect(fetches, now, c.maxApyAgeMs), v.protocol, d, c)
      && ComesFrom(best, fetches, now, c.maxApyAgeMs)
      && 0 < d.minOut <= v.deployed
      && v.deployed as real * (1.0 - c.slippageBps / 10000.0) - 1.0 < d.minOut as real
    ensures v.lastRebalance + v.cooldown <= v.ledger
  {
    var ys := Collect(fetches, now, c.maxApyAgeMs);
    best, held := DecidedOn(ys, v.protocol, v.deployed, c);
    CollectMembers(fetches, now, c.maxApyAgeMs, best);
  }

  /** The best observation and the current one, when the decision is to move. */
  lemma DecidedOn(ys: seq<Yield>, current: string, deployed: int, c: Config) returns (best: Yield, held: Yield)
    requires deployed > 0 && Decide(ys, current, deployed, c).Rebalance?
    ensures var d := Decide(ys, current, deployed, c);
      && Justifies(best, held, ys, current, d, c)
      && 0 < d.minOut <= deployed
      && deployed as real * (1.0 - c.slippageBps / 10000.0) - 1.0 < d.minOut as real
  {
    best := TopYield(ys, c.riskFree);
    held := FindProtocol(ys, current).value;
    FindFinds(ys, current);
    MoveBounds(Assess(best, c.riskFree), deployed, c);
  }

  lemma MoveBounds(best: Opportunity, deployed: int, c: Config)
    requires deployed > 0 && Move(best, deployed, c).Rebalance?
    ensures var d := Move(best, deployed, c);
      && d.target == best.protocolId && d.expectedApy == best.netApy
      && 0 < d.minOut <= deployed
      && deployed as real * (1.0 - c.slippageBps / 10000.0) - 1.0 < d.minOut as real
  {
    MinOutBounds(deployed, c.slippageBps);
  }

  /** The observation behind the best opportunity scores at least as much as every other. */
  lemma TopYield(ys: seq<Yield>, riskFree: real) returns (best: Yield)
    requires ys != []
    ensures best in ys && Best(AssessAll(ys, riskFree)) == Some(Assess(best, riskFree))
    ensures forall y :: y in ys ==> Assess(y, riskFree).score <= Assess(best, riskFree).score
  {
    var os := AssessAll(ys, riskFree);
    var k := BestIsFirstTop(os);
    best := ys[k];
    forall y | y in ys
      ensures Assess(y, riskFree).score <= Assess(best, riskFree).score
    {
      var j :| 0 <= j < |ys| && ys[j] == y;
      assert os[j].score <= os[k].score;
    }
  }

  lemma FirstTopIsBest(os: seq<Opportunity>, k: nat)
    requires FirstTopAt(os, k)
    ensures Best(os) == Some(os[k])
  {
    var j := BestIsFirstTop(os);
  }

  /** The vault's numbers are in range and the cooldown is over. */
  predicate MayMove(v: Vault) {
    && v.protocol != "" && 0 < v.deployed <= MAX_SAFE_INTEGER
    && 0 <= v.cooldown <= MAX_SAFE_INTEGER && 0 <= v.lastRebalance <= v.ledger <= MAX_SAFE_INTEGER
    && v.lastRebalance + v.cooldown <= v.ledger
  }

  /** The current protocol was observed too, and the observation y is better by the threshold. */
  ghost predicate Beats(y: Yield, ys: seq<Yield>, current: string, minImprovement: real) {
    exists held :: held in ys && held.protocolId == current && held.currentApy + minImprovement <= y.currentApy
  }

  predicate LeavesSome(deployed: int, slippageBps: real) {
    0.0 <= slippageBps < 10000.0 && 1.0 <= deployed as real * (1.0 - slippageBps / 10000.0)
  }

  lemma MayMoveDecides(fetches: seq<Fetch>, v: Vault, now: int, c: Config)
    ensures if MayMove(v) then Check(fetches, v, now, c)
        == Decide(Collect(fetches, now, c.maxApyAgeMs), v.protocol, v.deployed, c)
      else !Check(fetches, v, now, c).Rebalance?
  {
  }

  /**
   * A check moves the funds exactly when the cooldown is over and the first of the top scores is another protocol,
   * beats the current one by the threshold, and leaves a least output of one or more after a slippage within bounds.
   */
  lemma RebalanceIff(fetches: seq<Fetch>, v: Vault, now: int, c: Config, k: nat)
    requires OneFetchEach(fetches)
    requires FirstTopAt(AssessAll(Collect(fetches, now, c.maxApyAgeMs), c.riskFree), k)
    ensures var ys := Collect(fetches, now, c.maxApyAgeMs);
      Check(fetches, v, now, c).Rebalance? <==>
        && MayMove(v)
        && ys[k].protocolId != v.protocol
        && Beats(ys[k], ys, v.protocol, c.minImprovement)
        && LeavesSome(v.deployed, c.slippageBps)
  {
    var ys := Collect(fetches, now, c.maxApyAgeMs);
    CollectedProtocolsAreDistinct(fetches, now, c.maxApyAgeMs);
    MayMoveDecides(fetches, v, now, c);
    if MayMove(v) {
      DecideIff(ys, v.protocol, v.deployed, c, k);
    }
  }

  lemma DecideIff(ys: seq<Yield>, current: string, deployed: nat, c: Config, k: nat)
    requires DistinctProtocols(ys) && FirstTopAt(AssessAll(ys, c.riskFree), k) && deployed <= MAX_SAFE_INTEGER
    ensures Decide(ys, current, deployed, c).Rebalance? <==>
      && ys[k].protocolId != current
      && Beats(ys[k], ys, current, c.minImprovement)
      && LeavesSome(deployed, c.slippageBps)
  {
    FirstTopIsBest(AssessAll(ys, c.riskFree), k);
    MoveIff(Assess(ys[k], c.riskFree), deployed, c);
    BeatsIff(ys, current, ys[k], c);
  }

  lemma BeatsIff(ys: seq<Yield>, current: string, y: Yield, c: Config)
    requires DistinctProtocols(ys)
    ensures var now := FindProtocol(ys, current);
      Beats(y, ys, current, c.minImprovement) <==> now.Some? && ShouldRebalance(now.value.currentApy, y.currentApy, c)
  {
    FindFinds(ys, current);
  }

  lemma MoveIff(best: Opportunity, deployed: nat, c: Config)
    requires deployed <= MAX_SAFE_INTEGER
    ensures Move(best, deployed, c).Rebalance? <==> LeavesSome(deployed, c.slippageBps)
  {
    if 0.0 <= c.slippageBps < 10000.0 {
      MinOutBounds(deployed, c.slippageBps);
    }
  }

  /** Within the cooldown a check reports exactly the ledgers that are left, whatever the fetches gave. */
  lemma CooldownIff(fetches: seq<Fetch>, v: Vault, now: int, c: Config, remaining: int)
    ensures Check(fetches, v, now, c) == CooldownActive(remaining) <==>
      && v.protocol != "" && 0 < v.deployed <= MAX_SAFE_INTEGER
      && 0 <= v.cooldown <= MAX_SAFE_INTEGER && 0 <= v.lastRebalance <= v.ledger <= MAX_SAFE_INTEGER
      && remaining == v.lastRebalance + v.cooldown - v.ledger && remaining > 0
  {
  }
}
