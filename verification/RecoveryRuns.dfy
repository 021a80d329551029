/** What recovery runs guarantee: within one run, and over every sequence of runs that may crash. */
module RecoveryRuns {
  import opened Prelude
  import opened RecoveryModel
  import opened RecoveryOrchestrator

  // ---------------------------------------------------------------- the deduplicated queue

  /** A job this run may execute: well formed, in no ledger, not in flight. */
  predicate Fresh(job: Job, cfg: Config, k: Ledgers) {
    WellFormed(job, cfg) && !AlreadyDone(k, job) && job.status != InFlight
  }

  ghost predicate FreshKey(jobs: seq<Job>, cfg: Config, k: Ledgers, key: string) {
    exists i :: 0 <= i < |jobs| && jobs[i].key == key && Fresh(jobs[i], cfg, k)
  }

  /** Some copy of this key is set aside as a duplicate. */
  ghost predicate DuplicateAt(jobs: seq<Job>, cfg: Config, k: Ledgers, i: nat)
    requires i < |jobs|
  {
    && WellFormed(jobs[i], cfg)
    && (AlreadyDone(k, jobs[i]) || FreshKey(jobs[..i], cfg, k, jobs[i].key))
  }

  ghost predicate DuplicateKey(jobs: seq<Job>, cfg: Config, k: Ledgers, key: string) {
    exists i :: 0 <= i < |jobs| && jobs[i].key == key && DuplicateAt(jobs, cfg, k, i)
  }

  /** An in-flight job that nothing accounts for. */
  ghost predicate AmbiguousAt(jobs: seq<Job>, cfg: Config, k: Ledgers, i: nat)
    requires i < |jobs|
  {
    WellFormed(jobs[i], cfg) && !DuplicateAt(jobs, cfg, k, i) && jobs[i].status == InFlight
  }

  lemma FreshKeyByLast(jobs: seq<Job>, cfg: Config, k: Ledgers, key: string)
    requires jobs != []
    ensures var n := |jobs| - 1;
      FreshKey(jobs, cfg, k, key) <==> FreshKey(jobs[..n], cfg, k, key) || (jobs[n].key == key && Fresh(jobs[n], cfg, k))
  {
    var n := |jobs| - 1;
    if FreshKey(jobs[..n], cfg, k, key) {
      var i :| 0 <= i < n && jobs[..n][i].key == key && Fresh(jobs[..n][i], cfg, k);
      assert jobs[i].key == key && Fresh(jobs[i], cfg, k);
    }
    if FreshKey(jobs, cfg, k, key) {
      var i :| 0 <= i < |jobs| && jobs[i].key == key && Fresh(jobs[i], cfg, k);
      assert i < n ==> jobs[..n][i].key == key && Fresh(jobs[..n][i], cfg, k);
    }
  }

  lemma {:induction false} SeenAreFreshKeys(jobs: seq<Job>, cfg: Config, k: Ledgers, key: string)
    ensures key in DedupAll(jobs, cfg, k).seen <==> FreshKey(jobs, cfg, k, key)
  {
    if jobs != [] {
      var n := |jobs| - 1;
      SeenAreFreshKeys(jobs[..n], cfg, k, key);
      SeenAreFreshKeys(jobs[..n], cfg, k, jobs[n].key);
      FreshKeyByLast(jobs, cfg, k, key);
    }
  }

  /** The ready list holds each fresh key once, and only fresh jobs. */
  lemma {:induction false} ReadyIsFreshAndDistinct(jobs: seq<Job>, cfg: Config, k: Ledgers)
    ensures var d := DedupAll(jobs, cfg, k);
      && Distinct(Keys(d.ready))
      && (forall i :: 0 <= i < |d.ready| ==> Fresh(d.ready[i], cfg, k))
      && (forall key :: key in d.seen <==> key in Keys(d.ready))
  {
    if jobs != [] {
      var n := |jobs| - 1;
      ReadyIsFreshAndDistinct(jobs[..n], cfg, k);
      var before, d := DedupAll(jobs[..n], cfg, k), DedupAll(jobs, cfg, k);
      if d.ready != before.ready {
        assert Keys(d.ready) == Keys(before.ready) + [jobs[n].key];
        forall i | 0 <= i < |before.ready|
          ensures Keys(before.ready)[i] != jobs[n].key
        {
          assert Keys(before.ready)[i] in before.seen;
        }
      }
    }
  }

  /** How often an id occurs in the three lists together. */
  function Placed(d: Dedup, id: string): nat {
    multiset(d.dups)[id] + multiset(d.blocked)[id] + multiset(Ids(d.ready))[id]
  }

  lemma IdsOfLast(jobs: seq<Job>)
    requires jobs != []
    ensures Ids(jobs) == Ids(jobs[..|jobs| - 1]) + [jobs[|jobs| - 1].id]
  {
  }

  lemma OneMore(xs: seq<string>, x: string, id: string)
    ensures multiset(xs + [x])[id] == multiset(xs)[id] + if x == id then 1 else 0
  {
  }

  lemma JobGoesOneWay(d: Dedup, job: Job, cfg: Config, k: Ledgers)
    ensures var after := DedupJob(d, job, cfg, k);
      || (after.dups == d.dups + [job.id] && after.blocked == d.blocked && after.ready == d.ready)
      || (after.dups == d.dups && after.blocked == d.blocked + [job.id] && after.ready == d.ready)
      || (after.dups == d.dups && after.blocked == d.blocked && after.ready == d.ready + [job])
  {
  }

  lemma JobIsPlacedOnce(d: Dedup, job: Job, cfg: Config, k: Ledgers, id: string)
    ensures Placed(DedupJob(d, job, cfg, k), id) == Placed(d, id) + if job.id == id then 1 else 0
  {
    JobGoesOneWay(d, job, cfg, k);
    OneMore(d.dups, job.id, id);
    OneMore(d.blocked, job.id, id);
    OneMore(Ids(d.ready), job.id, id);
    IdsOfLast(d.ready + [job]);
    assert (d.ready + [job])[..|d.ready|] == d.ready;
  }

  /** Every pending job lands in exactly one of the three lists. */
  lemma {:induction false} DedupPartitions(jobs: seq<Job>, cfg: Config, k: Ledgers, id: string)
    ensures Placed(DedupAll(jobs, cfg, k), id) == multiset(Ids(jobs))[id]
  {
    if jobs != [] {
      var n := |jobs| - 1;
      DedupPartitions(jobs[..n], cfg, k, id);
      JobIsPlacedOnce(DedupAll(jobs[..n], cfg, k), jobs[n], cfg, k, id);
      IdsOfLast(jobs);
      OneMore(Ids(jobs[..n]), jobs[n].id, id);
    }
  }

  // ---------------------------------------------------------------- effects of call lists

  function EffectsOf(calls: seq<Call>): seq<string> {
    if calls == [] then []
    else
      var last := calls[|calls| - 1];
      EffectsOf(calls[..|calls| - 1]) + if last.Execute? then [last.job.key] else []
  }

  function KeysRecordedBy(calls: seq<Call>): set<string> {
    set i | 0 <= i < |calls| && calls[i].RecordKey? :: calls[i].key
  }

  lemma {:induction false} EffectsAccumulate(s: Stores, calls: seq<Call>)
    ensures ApplyAll(s, calls).effects == s.effects + EffectsOf(calls)
    ensures ApplyAll(s, calls).processed == s.processed + KeysRecordedBy(calls)
  {
    if calls != [] {
      var n := |calls| - 1;
      EffectsAccumulate(s, calls[..n]);
      forall key | key in KeysRecordedBy(calls)
        ensures key in KeysRecordedBy(calls[..n]) + if calls[n].RecordKey? then {calls[n].key} else {}
      {
        var i :| 0 <= i < |calls| && calls[i].RecordKey? && calls[i].key == key;
        if i < n {
          assert calls[..n][i] == calls[i];
        }
      }
      forall key | key in KeysRecordedBy(calls[..n])
        ensures key in KeysRecordedBy(calls)
      {
        var i :| 0 <= i < n && calls[..n][i].RecordKey? && calls[..n][i].key == key;
        assert calls[i].RecordKey? && calls[i].key == key;
      }
    }
  }

  lemma {:induction false} EffectsConcat(a: seq<Call>, b: seq<Call>)
    ensures EffectsOf(a + b) == EffectsOf(a) + EffectsOf(b)
    decreases |b|
  {
    if b == [] {
      assert a + b == a;
    } else {
      var n := |b| - 1;
      EffectsConcat(a, b[..n]);
      assert (a + b)[..|a + b| - 1] == a + b[..n];
    }
  }

  lemma {:induction false} NoExecuteNoEffects(calls: seq<Call>)
    requires forall i :: 0 <= i < |calls| ==> !calls[i].Execute?
    ensures EffectsOf(calls) == []
  {
    if calls != [] {
      NoExecuteNoEffects(calls[..|calls| - 1]);
    }
  }

  predicate Bookkeeping(call: Call) { call.MarkStatus? || call.RecordKey? || call.RecordExecuted? }

  ghost predicate AllBookkeeping(calls: seq<Call>) {
    forall i :: 0 <= i < |calls| ==> Bookkeeping(calls[i])
  }

  lemma {:induction false} DedupOnlyBookkeeps(jobs: seq<Job>, cfg: Config, k: Ledgers)
    ensures AllBookkeeping(DedupAll(jobs, cfg, k).calls)
  {
    if jobs != [] {
      var n := |jobs| - 1;
      DedupOnlyBookkeeps(jobs[..n], cfg, k);
      assert AllBookkeeping(DuplicateCalls(k, jobs[n]));
    }
  }

  lemma {:induction false} BlockNeverExecutes(ready: seq<Job>)
    ensures forall i :: 0 <= i < |BlockCalls(ready)| ==> BlockCalls(ready)[i].MarkStatus?
  {
    if ready != [] {
      BlockNeverExecutes(ready[..|ready| - 1]);
    }
  }

  lemma JobCallsEffects(job: Job, hash: string)
    ensures EffectsOf(ExecuteJobCalls(job, hash)) == [job.key]
    ensures KeysRecordedBy(ExecuteJobCalls(job, hash)) == {job.key}
  {
    var calls := ExecuteJobCalls(job, hash);
    assert calls == [Execute(job)] + calls[1..];
    EffectsConcat([Execute(job)], calls[1..]);
    NoExecuteNoEffects(calls[1..]);
    assert calls[1] == RecordKey(job.key);
  }

  lemma {:induction false} ExecuteEffects(ready: seq<Job>, hashFor: Job -> string)
    ensures EffectsOf(ExecuteCalls(ready, hashFor)) == Keys(ready)
    ensures KeysRecordedBy(ExecuteCalls(ready, hashFor)) == set key | key in Keys(ready)
    ensures forall i :: 0 <= i < |ExecuteCalls(ready, hashFor)| ==>
      !ExecuteCalls(ready, hashFor)[i].SaveCheckpoint? && !ExecuteCalls(ready, hashFor)[i].InsertEvent?
  {
    if ready != [] {
      var n := |ready| - 1;
      var init, last := ExecuteCalls(ready[..n], hashFor), ExecuteJobCalls(ready[n], hashFor(ready[n]));
      ExecuteEffects(ready[..n], hashFor);
      JobCallsEffects(ready[n], hashFor(ready[n]));
      EffectsConcat(init, last);
      RecordedConcat(init, last);
      assert Keys(ready) == Keys(ready[..n]) + [ready[n].key];
    }
  }

  lemma RecordedConcat(a: seq<Call>, b: seq<Call>)
    ensures KeysRecordedBy(a + b) == KeysRecordedBy(a) + KeysRecordedBy(b)
  {
    forall key | key in KeysRecordedBy(a) + KeysRecordedBy(b)
      ensures key in KeysRecordedBy(a + b)
    {
      if key in KeysRecordedBy(a) {
        var i :| 0 <= i < |a| && a[i].RecordKey? && a[i].key == key;
        assert (a + b)[i] == a[i];
      } else {
        var i :| 0 <= i < |b| && b[i].RecordKey? && b[i].key == key;
        assert (a + b)[|a| + i] == b[i];
      }
    }
    forall key | key in KeysRecordedBy(a + b)
      ensures key in KeysRecordedBy(a) + KeysRecordedBy(b)
    {
      var i :| 0 <= i < |a + b| && (a + b)[i].RecordKey? && (a + b)[i].key == key;
      if i < |a| {
        assert a[i].RecordKey? && a[i].key == key;
      } else {
        assert b[i - |a|].RecordKey? && b[i - |a|].key == key;
      }
    }
  }

  /** The keys whose action one uninterrupted run makes take effect. */
  function RunEffects(s: Stores, r: Reads, cfg: Config): seq<string> {
    if Recovers(s, r, cfg) then Keys(Plan(s, r, cfg).ready) else []
  }

  /** Saving the checkpoint adds no effect to those of the execute loop. */
  lemma WholeLoopEffects(ready: seq<Job>, hashFor: Job -> string, latest: int)
    ensures EffectsOf(ExecuteCalls(ready, hashFor) + [SaveCheckpoint(latest)]) == Keys(ready)
  {
    ExecuteEffects(ready, hashFor);
    EffectsConcat(ExecuteCalls(ready, hashFor), [SaveCheckpoint(latest)]);
    NoExecuteNoEffects([SaveCheckpoint(latest)]);
  }

  lemma GateEffects(s: Stores, r: Reads, cfg: Config)
    ensures EffectsOf(GateCalls(s, r, cfg)) == RunEffects(s, r, cfg)
  {
    var ready := Plan(s, r, cfg).ready;
    if Recovers(s, r, cfg) {
      WholeLoopEffects(ready, r.hashFor, r.latest);
    } else {
      BlockNeverExecutes(ready);
      NoExecuteNoEffects(BlockCalls(ready));
    }
  }

  lemma EffectsOfTheLast(a: seq<Call>, b: seq<Call>, c: seq<Call>)
    requires EffectsOf(a) == [] && EffectsOf(b) == []
    ensures EffectsOf(a + b + c) == EffectsOf(c)
  {
    EffectsConcat(a, b);
    EffectsConcat(a + b, c);
    assert [] + [] + EffectsOf(c) == EffectsOf(c);
  }

  lemma RunEffectsAreItsCalls(s: Stores, r: Reads, cfg: Config)
    ensures EffectsOf(RunCalls(s, r, cfg)) == RunEffects(s, r, cfg)
  {
    var inserts, calls := BackfillCalls(PreviousLedger(s, r), r), Plan(s, r, cfg).calls;
    NoExecuteNoEffects(inserts);
    DedupOnlyBookkeeps(s.jobs, cfg, LedgersAt(s, r));
    NoExecuteNoEffects(calls);
    EffectsOfTheLast(inserts, calls, GateCalls(s, r, cfg));
    GateEffects(s, r, cfg);
  }

  lemma GateShape(s: Stores, r: Reads, cfg: Config, i: nat)
    requires i < |GateCalls(s, r, cfg)|
    ensures var gate := GateCalls(s, r, cfg);
      !gate[i].InsertEvent? && (gate[i].SaveCheckpoint? <==> Recovers(s, r, cfg) && i == |gate| - 1)
  {
    BlockNeverExecutes(Plan(s, r, cfg).ready);
    ExecuteEffects(Plan(s, r, cfg).ready, r.hashFor);
  }

  /** Which of three lists holds the i-th call. */
  lemma CallAt(a: seq<Call>, b: seq<Call>, c: seq<Call>, i: nat)
    requires i < |a + b + c|
    ensures (a + b + c)[i] ==
      if i < |a| then a[i] else if i < |a| + |b| then b[i - |a|] else c[i - |a| - |b|]
  {
  }

  /** Where in a run events are inserted and the checkpoint is saved. */
  lemma RunCallShape(s: Stores, r: Reads, cfg: Config, i: nat)
    requires i < |RunCalls(s, r, cfg)|
    ensures var calls, inserts := RunCalls(s, r, cfg), BackfillCalls(PreviousLedger(s, r), r);
      && (calls[i].InsertEvent? <==> i < |inserts|)
      && (i < |inserts| ==> i < |r.events| && calls[i] == InsertEvent(r.events[i]))
      && (calls[i].SaveCheckpoint? <==> Recovers(s, r, cfg) && i == |calls| - 1)
  {
    var inserts, d, gate := BackfillCalls(PreviousLedger(s, r), r), Plan(s, r, cfg), GateCalls(s, r, cfg);
    DedupOnlyBookkeeps(s.jobs, cfg, LedgersAt(s, r));
    assert RunCalls(s, r, cfg) == inserts + d.calls + gate;
    assert Recovers(s, r, cfg) ==> |gate| > 0;
    CallAt(inserts, d.calls, gate, i);
    if |inserts| <= i < |inserts| + |d.calls| {
      assert Bookkeeping(d.calls[i - |inserts|]);
    } else if |inserts| + |d.calls| <= i {
      GateShape(s, r, cfg, i - |inserts| - |d.calls|);
    }
  }

  // ---------------------------------------------------------------- one run

  /**
   * An uninterrupted run adds one effect for a key when the gate opens and some fresh job carries it,
   * and none otherwise. For a key that already landed this says exactly when the action is repeated.
   */
  lemma RunEffectCount(s: Stores, r: Reads, cfg: Config, key: string)
    ensures multiset(ApplyAll(s, RunCalls(s, r, cfg)).effects)[key]
         == multiset(s.effects)[key]
          + if Recovers(s, r, cfg) && FreshKey(s.jobs, cfg, LedgersAt(s, r), key) then 1 else 0
  {
    var k, d := LedgersAt(s, r), Plan(s, r, cfg);
    EffectsAccumulate(s, RunCalls(s, r, cfg));
    RunEffectsAreItsCalls(s, r, cfg);
    ReadyIsFreshAndDistinct(s.jobs, cfg, k);
    SeenAreFreshKeys(s.jobs, cfg, k, key);
    if Recovers(s, r, cfg) {
      DistinctCount(Keys(d.ready), key);
    }
  }

  lemma {:induction false} DistinctCount(s: seq<string>, x: string)
    requires Distinct(s)
    ensures multiset(s)[x] == if x in s then 1 else 0
  {
    if s != [] {
      var n := |s| - 1;
      DistinctCount(s[..n], x);
      assert s == s[..n] + [s[n]];
    }
  }

  /**
   * The report partitions the pending jobs into duplicates, executed and blocked; a blocked run executes
   * none and a recovered run blocks none.
   */
  lemma ReportPartitionsJobs(s: Stores, r: Reads, cfg: Config, id: string)
    ensures var report := RunReport(s, r, cfg);
      && multiset(report.dups)[id] + multiset(report.blocked)[id] + multiset(ExecutedIds(report.executed))[id]
         == multiset(Ids(s.jobs))[id]
      && (!report.recovered ==> report.executed == [])
      && (report.recovered ==> report.blocked == [] && report.gaps == [])
  {
    var d := Plan(s, r, cfg);
    DedupPartitions(s.jobs, cfg, LedgersAt(s, r), id);
    if Recovers(s, r, cfg) {
      assert ExecutedIds(ExecutedActions(d.ready, r.hashFor)) == Ids(d.ready);
      BlockedHaveGaps(s.jobs, cfg, LedgersAt(s, r));
    }
  }

  function ExecutedIds(done: seq<Executed>): seq<string> {
    seq(|done|, i requires 0 <= i < |done| => done[i].id)
  }

  lemma {:induction false} BlockedHaveGaps(jobs: seq<Job>, cfg: Config, k: Ledgers)
    ensures |DedupAll(jobs, cfg, k).blocked| == |DedupAll(jobs, cfg, k).gaps|
  {
    if jobs != [] {
      BlockedHaveGaps(jobs[..|jobs| - 1], cfg, k);
    }
  }

  /** Every queued job is well formed, and every in-flight one is accounted for. */
  ghost predicate QueueUnambiguous(jobs: seq<Job>, cfg: Config, k: Ledgers) {
    forall i :: 0 <= i < |jobs| ==> WellFormed(jobs[i], cfg) && !AmbiguousAt(jobs, cfg, k, i)
  }

  lemma UnambiguousByLast(jobs: seq<Job>, cfg: Config, k: Ledgers)
    requires jobs != []
    ensures var n := |jobs| - 1;
      QueueUnambiguous(jobs, cfg, k) <==>
      QueueUnambiguous(jobs[..n], cfg, k) && WellFormed(jobs[n], cfg) && !AmbiguousAt(jobs, cfg, k, n)
  {
    var n := |jobs| - 1;
    forall i | 0 <= i < n
      ensures jobs[..n][i] == jobs[i] && AmbiguousAt(jobs, cfg, k, i) == AmbiguousAt(jobs[..n], cfg, k, i)
    {
      assert jobs[..n][..i] == jobs[..i];
    }
    if QueueUnambiguous(jobs, cfg, k) {
      forall i | 0 <= i < n
        ensures WellFormed(jobs[..n][i], cfg) && !AmbiguousAt(jobs[..n], cfg, k, i)
      {
        assert WellFormed(jobs[i], cfg) && !AmbiguousAt(jobs, cfg, k, i);
      }
    }
  }

  lemma {:induction false} NoJobGapsIff(jobs: seq<Job>, cfg: Config, k: Ledgers)
    ensures DedupAll(jobs, cfg, k).gaps == [] <==> QueueUnambiguous(jobs, cfg, k)
  {
    if jobs != [] {
      var n := |jobs| - 1;
      NoJobGapsIff(jobs[..n], cfg, k);
      SeenAreFreshKeys(jobs[..n], cfg, k, jobs[n].key);
      UnambiguousByLast(jobs, cfg, k);
    }
  }

  /** Where a run finds its last ledger: the stored checkpoint, or with none stored the restored one. */
  predicate StartsAt(s: Stores, r: Reads, ledger: int) {
    s.checkpoint == Some(ledger) || (s.checkpoint.None? && r.restored == Some(ledger))
  }

  /** Neither the database nor the backup has a checkpoint. */
  predicate StartsNowhere(s: Stores, r: Reads) { s.checkpoint.None? && r.restored.None? }

  /**
   * Exactly when a run recovers. A negative checkpoint passes the gate without any backfill; on every other
   * checkpoint recovery means 0 < previous <= latest with no ledger missing.
   */
  lemma RecoveredIff(s: Stores, r: Reads, cfg: Config)
    ensures RunReport(s, r, cfg).recovered <==>
      && r.network == cfg.network
      && (s.checkpoint.Some? || r.restored.Some?)
      && (var prev := if s.checkpoint.Some? then s.checkpoint.value else r.restored.value;
          prev != 0 && prev <= r.latest && (prev > 0 ==> r.missing == []))
      && QueueUnambiguous(s.jobs, cfg, LedgersAt(s, r))
      && r.chainAssets == r.dbAssets && r.chainShares == r.dbShares
  {
    NoJobGapsIff(s.jobs, cfg, LedgersAt(s, r));
  }

  lemma GateRecords(s: Stores, r: Reads, cfg: Config, key: string)
    ensures key in KeysRecordedBy(GateCalls(s, r, cfg)) <==> Recovers(s, r, cfg) && key in Keys(Plan(s, r, cfg).ready)
  {
    var ready := Plan(s, r, cfg).ready;
    if Recovers(s, r, cfg) {
      ExecuteEffects(ready, r.hashFor);
      RecordedConcat(ExecuteCalls(ready, r.hashFor), [SaveCheckpoint(r.latest)]);
    } else {
      BlockNeverExecutes(ready);
    }
  }

  /** A run sets aside exactly these keys as already processed; a recovered one adds those it executed. */
  lemma ProcessedAfterRun(s: Stores, r: Reads, cfg: Config, key: string)
    ensures var k := LedgersAt(s, r);
      key in ApplyAll(s, RunCalls(s, r, cfg)).processed <==>
      || key in s.processed
      || DuplicateKey(s.jobs, cfg, k, key)
      || (Recovers(s, r, cfg) && FreshKey(s.jobs, cfg, k, key))
  {
    var k, d := LedgersAt(s, r), Plan(s, r, cfg);
    var inserts, gate := BackfillCalls(PreviousLedger(s, r), r), GateCalls(s, r, cfg);
    EffectsAccumulate(s, RunCalls(s, r, cfg));
    RecordedConcat(inserts, d.calls);
    RecordedConcat(inserts + d.calls, gate);
    DedupRecords(s.jobs, cfg, k, key);
    SeenAreFreshKeys(s.jobs, cfg, k, key);
    ReadyIsFreshAndDistinct(s.jobs, cfg, k);
    GateRecords(s, r, cfg, key);
  }

  lemma {:induction false} DedupRecords(jobs: seq<Job>, cfg: Config, k: Ledgers, key: string)
    ensures key in KeysRecordedBy(DedupAll(jobs, cfg, k).calls) <==> DuplicateKey(jobs, cfg, k, key)
  {
    if jobs != [] {
      var n := |jobs| - 1;
      var before := DedupAll(jobs[..n], cfg, k);
      DedupRecords(jobs[..n], cfg, k, key);
      SeenAreFreshKeys(jobs[..n], cfg, k, jobs[n].key);
      LastDecides(jobs, cfg, k, key);
      if DuplicateAt(jobs, cfg, k, n) {
        RecordedConcat(before.calls, DuplicateCalls(k, jobs[n]));
        assert DuplicateCalls(k, jobs[n])[1] == RecordKey(jobs[n].key);
        assert KeysRecordedBy(DuplicateCalls(k, jobs[n])) == {jobs[n].key};
      } else {
        RecordedConcat(before.calls, [MarkStatus(jobs[n].id, Blocked, "")]);
        assert KeysRecordedBy([MarkStatus(jobs[n].id, Blocked, "")]) == {};
      }
    }
  }

  lemma LastDecides(jobs: seq<Job>, cfg: Config, k: Ledgers, key: string)
    requires jobs != []
    ensures var n := |jobs| - 1;
      DuplicateKey(jobs, cfg, k, key) <==>
      DuplicateKey(jobs[..n], cfg, k, key) || (jobs[n].key == key && DuplicateAt(jobs, cfg, k, n))
  {
    var n := |jobs| - 1;
    forall i | 0 <= i < n
      ensures DuplicateAt(jobs, cfg, k, i) == DuplicateAt(jobs[..n], cfg, k, i) && jobs[..n][i] == jobs[i]
    {
      assert jobs[..n][..i] == jobs[..i];
    }
    if DuplicateKey(jobs[..n], cfg, k, key) {
      var i :| 0 <= i < n && jobs[..n][i].key == key && DuplicateAt(jobs[..n], cfg, k, i);
      assert jobs[i].key == key && DuplicateAt(jobs, cfg, k, i);
    }
    if DuplicateKey(jobs, cfg, k, key) {
      var i :| 0 <= i < |jobs| && jobs[i].key == key && DuplicateAt(jobs, cfg, k, i);
      if i < n {
        assert jobs[..n][i].key == key && DuplicateAt(jobs[..n], cfg, k, i);
      }
    }
  }

  // ---------------------------------------------------------------- rerunning

  predicate SameKeys(a: seq<Job>, b: seq<Job>) {
    |a| == |b| && forall i :: 0 <= i < |a| ==> a[i].key == b[i].key
  }

  lemma {:induction false} MarkingKeepsKeys(jobs: seq<Job>, jobId: string, status: Status, hash: string)
    ensures SameKeys(jobs, MarkFirst(jobs, jobId, status, hash))
  {
    if jobs != [] {
      MarkingKeepsKeys(jobs[1..], jobId, status, hash);
    }
  }

  lemma {:induction false} RunKeepsKeys(s: Stores, calls: seq<Call>)
    ensures SameKeys(s.jobs, ApplyAll(s, calls).jobs)
  {
    if calls != [] {
      var n := |calls| - 1;
      RunKeepsKeys(s, calls[..n]);
      if calls[n].MarkStatus? {
        MarkingKeepsKeys(ApplyAll(s, calls[..n]).jobs, calls[n].jobId, calls[n].status, calls[n].hash);
      }
    }
  }

  /** Rerunning on the queue a recovered run left behind executes nothing, whatever the rerun reads. */
  lemma RerunExecutesNothing(s: Stores, r: Reads, cfg: Config, again: Reads)
    requires Recovers(s, r, cfg)
    ensures var left := ApplyAll(s, RunCalls(s, r, cfg));
      RunReport(left, again, cfg).executed == [] && ApplyAll(left, RunCalls(left, again, cfg)).effects == left.effects
  {
    var left := ApplyAll(s, RunCalls(s, r, cfg));
    forall i | 0 <= i < |left.jobs|
      ensures !Fresh(left.jobs[i], cfg, LedgersAt(left, again))
    {
      RecoveredRunProcessesAll(s, r, cfg, i);
    }
    ReadyIsFreshAndDistinct(left.jobs, cfg, LedgersAt(left, again));
    NothingFreshNothingReady(left.jobs, cfg, LedgersAt(left, again));
    EffectsAccumulate(left, RunCalls(left, again, cfg));
    RunEffectsAreItsCalls(left, again, cfg);
  }

  lemma RecoveredRunProcessesAll(s: Stores, r: Reads, cfg: Config, i: nat)
    requires Recovers(s, r, cfg)
    requires i < |ApplyAll(s, RunCalls(s, r, cfg)).jobs|
    ensures var left := ApplyAll(s, RunCalls(s, r, cfg)); left.jobs[i].key in left.processed
  {
    var k := LedgersAt(s, r);
    RunKeepsKeys(s, RunCalls(s, r, cfg));
    NoJobGapsIff(s.jobs, cfg, k);
    ProcessedAfterRun(s, r, cfg, s.jobs[i].key);
    assert WellFormed(s.jobs[i], cfg) && !AmbiguousAt(s.jobs, cfg, k, i);
    assert DuplicateAt(s.jobs, cfg, k, i) || Fresh(s.jobs[i], cfg, k);
  }

  lemma NothingFreshNothingReady(jobs: seq<Job>, cfg: Config, k: Ledgers)
    requires forall i :: 0 <= i < |jobs| ==> !Fresh(jobs[i], cfg, k)
    ensures DedupAll(jobs, cfg, k).ready == []
  {
    var d := DedupAll(jobs, cfg, k);
    ReadyIsFreshAndDistinct(jobs, cfg, k);
    if d.ready != [] {
      assert Keys(d.ready)[0] in d.seen;
      SeenAreFreshKeys(jobs, cfg, k, Keys(d.ready)[0]);
    }
  }

  // ---------------------------------------------------------------- sequences of runs

  /** One run: the stores it starts from, what it reads, and how many writing calls it completes. */
  datatype Attempt = Attempt(before: Stores, inputs: Reads, done: nat)

  predicate Possible(a: Attempt, cfg: Config) { a.done <= |RunCalls(a.before, a.inputs, cfg)| }

  function After(a: Attempt, cfg: Config): Stores
    requires Possible(a, cfg)
  {
    ApplyAll(a.before, RunCalls(a.before, a.inputs, cfg)[..a.done])
  }

  /** The confirmed map lists every key that has landed. */
  predicate ConfirmedIsComplete(a: Attempt) {
    forall i :: 0 <= i < |a.before.effects| ==>
      a.before.effects[i] in a.inputs.confirmed && a.inputs.confirmed[a.before.effects[i]] != ""
  }

  /**
   * Runs one after another. Between two runs anything may happen to Redis and to the database (jobs queued,
   * statuses rewritten, idempotency keys lost), but no other action lands.
   */
  ghost predicate History(runs: seq<Attempt>, cfg: Config) {
    && (forall i :: 0 <= i < |runs| ==> Possible(runs[i], cfg))
    && forall i :: 0 < i < |runs| ==> runs[i].before.effects == After(runs[i - 1], cfg).effects
  }

  lemma HistoryPrefix(runs: seq<Attempt>, cfg: Config)
    requires History(runs, cfg) && |runs| > 1
    ensures var n := |runs| - 1;
      && History(runs[..n], cfg)
      && Possible(runs[n - 1], cfg) && runs[n].before.effects == After(runs[n - 1], cfg).effects
  {
    var n := |runs| - 1;
    forall i | 0 < i < n
      ensures runs[..n][i].before.effects == After(runs[..n][i - 1], cfg).effects
    {
      assert runs[..n][i - 1] == runs[i - 1];
    }
  }

  lemma {:induction false} EffectsOfPrefix(calls: seq<Call>, done: nat)
    requires done <= |calls|
    ensures EffectsOf(calls[..done]) <= EffectsOf(calls)
    decreases |calls|
  {
    if done == |calls| {
      assert calls[..done] == calls;
    } else {
      EffectsOfPrefix(calls[..|calls| - 1], done);
      assert calls[..|calls| - 1][..done] == calls[..done];
    }
  }

  lemma PrefixEffects(s: Stores, r: Reads, cfg: Config, done: nat)
    requires done <= |RunCalls(s, r, cfg)|
    ensures var calls := RunCalls(s, r, cfg);
      && ApplyAll(s, calls[..done]).effects == s.effects + EffectsOf(calls[..done])
      && EffectsOf(calls[..done]) <= RunEffects(s, r, cfg)
  {
    EffectsAccumulate(s, RunCalls(s, r, cfg)[..done]);
    EffectsOfPrefix(RunCalls(s, r, cfg), done);
    RunEffectsAreItsCalls(s, r, cfg);
  }

  lemma AttemptKeepsEffectsDistinct(a: Attempt, cfg: Config)
    requires Possible(a, cfg) && ConfirmedIsComplete(a) && Distinct(a.before.effects)
    ensures Distinct(After(a, cfg).effects)
  {
    var s, r := a.before, a.inputs;
    PrefixEffects(s, r, cfg, a.done);
    ReadyIsFreshAndDistinct(s.jobs, cfg, LedgersAt(s, r));
    var added := EffectsOf(RunCalls(s, r, cfg)[..a.done]);
    forall i, j | 0 <= i < |s.effects| && 0 <= j < |added|
      ensures s.effects[i] != added[j]
    {
      assert added[j] == RunEffects(s, r, cfg)[j];
      assert Fresh(Plan(s, r, cfg).ready[j], cfg, LedgersAt(s, r));
    }
  }

  /** However the runs crash, every idempotency key takes financial effect at most once. */
  lemma {:induction false} EffectsAtMostOnce(runs: seq<Attempt>, cfg: Config)
    requires History(runs, cfg) && runs != []
    requires forall i :: 0 <= i < |runs| ==> ConfirmedIsComplete(runs[i])
    requires Distinct(runs[0].before.effects)
    ensures Distinct(After(runs[|runs| - 1], cfg).effects)
  {
    var n := |runs| - 1;
    if n > 0 {
      HistoryPrefix(runs, cfg);
      assert runs[..n][0] == runs[0] && runs[..n][n - 1] == runs[n - 1];
      EffectsAtMostOnce(runs[..n], cfg);
    }
    AttemptKeepsEffectsDistinct(runs[n], cfg);
  }

  lemma {:induction false} ProcessedKeyGainsNothingYet(runs: seq<Attempt>, cfg: Config, key: string, n: nat)
    requires History(runs, cfg) && n < |runs|
    requires forall i :: 0 <= i < |runs| ==> key in runs[i].before.processed
    ensures multiset(After(runs[n], cfg).effects)[key] == multiset(runs[0].before.effects)[key]
  {
    if n > 0 {
      ProcessedKeyGainsNothingYet(runs, cfg, key, n - 1);
    }
    ProcessedKeyGainsNothing(runs[n], cfg, key);
  }

  /**
   * A key set aside as processed never executes again while Redis remembers it: so a batch that holds a key
   * twice, and is then blocked, loses the action (see `ProcessedAfterRun`).
   */
  lemma ProcessedKeyStaysUnexecuted(runs: seq<Attempt>, cfg: Config, key: string)
    requires History(runs, cfg) && runs != []
    requires forall i :: 0 <= i < |runs| ==> key in runs[i].before.processed
    ensures multiset(After(runs[|runs| - 1], cfg).effects)[key] == multiset(runs[0].before.effects)[key]
  {
    ProcessedKeyGainsNothingYet(runs, cfg, key, |runs| - 1);
  }

  lemma ProcessedKeyGainsNothing(a: Attempt, cfg: Config, key: string)
    requires Possible(a, cfg) && key in a.before.processed
    ensures multiset(After(a, cfg).effects)[key] == multiset(a.before.effects)[key]
  {
    var s, r := a.before, a.inputs;
    PrefixEffects(s, r, cfg, a.done);
    ReadyIsFreshAndDistinct(s.jobs, cfg, LedgersAt(s, r));
    var added := EffectsOf(RunCalls(s, r, cfg)[..a.done]);
    forall j | 0 <= j < |added|
      ensures added[j] != key
    {
      assert added[j] == RunEffects(s, r, cfg)[j];
      assert Fresh(Plan(s, r, cfg).ready[j], cfg, LedgersAt(s, r));
    }
    assert key !in multiset(added);
  }

  // ---------------------------------------------------------------- checkpoint and event index

  ghost predicate DistinctIds(events: seq<Event>) {
    forall i, j :: 0 <= i < j < |events| ==> events[i].id != events[j].id
  }

  /** The chain's final event history: event ids identify events. */
  ghost predicate IsChain(chain: set<Event>) {
    forall a, b :: a in chain && b in chain && a.id == b.id ==> a == b
  }

  /** The RPC invents no event, and when it reports no missing ledger its window is complete. */
  ghost predicate FaithfulWindow(a: Attempt, chain: set<Event>) {
    && (forall e :: e in a.inputs.events ==> e in chain)
    && (a.inputs.missing == [] ==>
          forall prev, e :: StartsAt(a.before, a.inputs, prev) && e in chain && prev < e.ledger <= a.inputs.latest ==>
            e in a.inputs.events)
  }

  /** The ledger a run starts from: the stored checkpoint, or the restored one, or zero. */
  function StartLedger(a: Attempt): int { PreviousLedger(a.before, a.inputs) }

  /** The ledger up to which the index is known to be complete after a run. */
  function Reached(a: Attempt, cfg: Config): int
    requires Possible(a, cfg)
  {
    if After(a, cfg).checkpoint.Some? then After(a, cfg).checkpoint.value else StartLedger(a)
  }

  /**
   * Between runs nobody else moves the checkpoint or touches the event index; and while there is no checkpoint the
   * state backup goes on restoring the same one.
   */
  ghost predicate IndexHistory(runs: seq<Attempt>, cfg: Config, chain: set<Event>) {
    && (forall i :: 0 <= i < |runs| ==> Possible(runs[i], cfg) && FaithfulWindow(runs[i], chain))
    && forall i :: 0 < i < |runs| ==> Follows(runs[i], runs[i - 1], cfg)
  }

  ghost predicate Follows(a: Attempt, previous: Attempt, cfg: Config)
    requires Possible(previous, cfg)
  {
    && a.before.checkpoint == After(previous, cfg).checkpoint
    && a.before.indexed == After(previous, cfg).indexed
    && (a.before.checkpoint.None? ==> a.inputs.restored == previous.inputs.restored)
  }

  /** Every chain event in (lo, hi] is indexed; with distinct ids, exactly once. */
  ghost predicate Indexed(events: seq<Event>, chain: set<Event>, lo: int, hi: int) {
    forall e :: e in chain && lo < e.ledger <= hi ==> e in events
  }

  lemma {:induction false} CallsGrowIndex(s: Stores, calls: seq<Call>, chain: set<Event>)
    requires DistinctIds(s.indexed) && forall e :: e in s.indexed ==> e in chain
    requires forall i :: 0 <= i < |calls| && calls[i].InsertEvent? ==> calls[i].event in chain
    ensures var after := ApplyAll(s, calls).indexed;
      && s.indexed <= after && DistinctIds(after)
      && (forall e :: e in after ==> e in chain)
      && (forall i :: 0 <= i < |calls| && calls[i].InsertEvent? ==> IsIndexed(after, calls[i].event.id))
  {
    if calls != [] {
      var n := |calls| - 1;
      var mid, after := ApplyAll(s, calls[..n]).indexed, ApplyAll(s, calls).indexed;
      forall i | 0 <= i < n && calls[..n][i].InsertEvent?
        ensures calls[..n][i].event in chain
      {
        assert calls[i].InsertEvent?;
      }
      CallsGrowIndex(s, calls[..n], chain);
      assert mid <= after;
      forall i | 0 <= i < |calls| && calls[i].InsertEvent?
        ensures IsIndexed(after, calls[i].event.id)
      {
        if i < n {
          assert calls[..n][i] == calls[i];
          var j :| 0 <= j < |mid| && mid[j].id == calls[i].event.id;
          assert after[j].id == calls[i].event.id;
        } else if !IsIndexed(mid, calls[n].event.id) {
          assert after[|mid|].id == calls[n].event.id;
        }
      }
    }
  }

  lemma {:induction false} OnlySaveMovesCheckpoint(s: Stores, calls: seq<Call>)
    requires forall i :: 0 <= i < |calls| ==> !calls[i].SaveCheckpoint?
    ensures ApplyAll(s, calls).checkpoint == s.checkpoint
  {
    if calls != [] {
      OnlySaveMovesCheckpoint(s, calls[..|calls| - 1]);
    }
  }

  /** The checkpoint moves only when a recovered run completes every one of its calls. */
  lemma CheckpointMovesIff(a: Attempt, cfg: Config)
    requires Possible(a, cfg)
    ensures var calls := RunCalls(a.before, a.inputs, cfg);
      After(a, cfg).checkpoint
      == if Recovers(a.before, a.inputs, cfg) && a.done == |calls| then Some(a.inputs.latest) else a.before.checkpoint
  {
    var s, r, calls := a.before, a.inputs, RunCalls(a.before, a.inputs, cfg);
    if Recovers(s, r, cfg) && a.done == |calls| {
      RunCallShape(s, r, cfg, |calls| - 1);
      assert calls[..a.done] == calls;
      assert calls[|calls| - 1] == SaveCheckpoint(r.latest);
    } else {
      NoSaveBeforeTheLast(s, r, cfg, a.done);
      OnlySaveMovesCheckpoint(s, calls[..a.done]);
    }
  }

  lemma NoSaveBeforeTheLast(s: Stores, r: Reads, cfg: Config, n: nat)
    requires n <= |RunCalls(s, r, cfg)| && !(Recovers(s, r, cfg) && n == |RunCalls(s, r, cfg)|)
    ensures forall i :: 0 <= i < n ==> !RunCalls(s, r, cfg)[..n][i].SaveCheckpoint?
  {
    forall i | 0 <= i < n
      ensures !RunCalls(s, r, cfg)[..n][i].SaveCheckpoint?
    {
      RunCallShape(s, r, cfg, i);
    }
  }

  /** A recovered run that completes has tried to insert everything between the checkpoints. */
  lemma RecoveredRunCovers(a: Attempt, cfg: Config, chain: set<Event>, hi: int, e: Event)
    requires FaithfulWindow(a, chain) && StartsAt(a.before, a.inputs, hi) && 0 <= hi
    requires Recovers(a.before, a.inputs, cfg)
    requires e in chain && hi < e.ledger <= a.inputs.latest
    ensures InsertEvent(e) in RunCalls(a.before, a.inputs, cfg)
  {
    var s, r := a.before, a.inputs;
    RecoveredBackfills(s, r, cfg, hi);
    assert e in r.events;
    var i :| 0 <= i < |r.events| && r.events[i] == e;
    BackfilledInRun(s, r, cfg, i);
  }

  lemma RecoveredBackfills(s: Stores, r: Reads, cfg: Config, hi: int)
    requires Recovers(s, r, cfg) && StartsAt(s, r, hi) && 0 <= hi
    ensures r.missing == [] && Backfills(PreviousLedger(s, r), r)
  {
    RecoveredIff(s, r, cfg);
  }

  lemma BackfilledInRun(s: Stores, r: Reads, cfg: Config, i: nat)
    requires Backfills(PreviousLedger(s, r), r) && i < |r.events|
    ensures InsertEvent(r.events[i]) in RunCalls(s, r, cfg)
  {
    var inserts := BackfillCalls(PreviousLedger(s, r), r);
    assert inserts[i] == InsertEvent(r.events[i]);
    CallAt(inserts, Plan(s, r, cfg).calls, GateCalls(s, r, cfg), i);
  }

  lemma AttemptGrowsIndex(a: Attempt, cfg: Config, chain: set<Event>)
    requires Possible(a, cfg) && FaithfulWindow(a, chain)
    requires DistinctIds(a.before.indexed) && forall e :: e in a.before.indexed ==> e in chain
    ensures var calls, after := RunCalls(a.before, a.inputs, cfg), After(a, cfg).indexed;
      && a.before.indexed <= after && DistinctIds(after) && (forall e :: e in after ==> e in chain)
      && forall i :: 0 <= i < a.done && calls[i].InsertEvent? ==> IsIndexed(after, calls[i].event.id)
  {
    var s, r, calls := a.before, a.inputs, RunCalls(a.before, a.inputs, cfg);
    var made := calls[..a.done];
    forall i | 0 <= i < |made| && made[i].InsertEvent?
      ensures made[i].event in chain
    {
      RunCallShape(s, r, cfg, i);
    }
    CallsGrowIndex(s, made, chain);
    forall i | 0 <= i < a.done && calls[i].InsertEvent?
      ensures IsIndexed(After(a, cfg).indexed, calls[i].event.id)
    {
      assert made[i] == calls[i];
    }
  }

  lemma AttemptExtendsIndex(a: Attempt, cfg: Config, chain: set<Event>, lo: nat)
    requires Possible(a, cfg) && FaithfulWindow(a, chain) && IsChain(chain)
    requires lo <= StartLedger(a)
    requires DistinctIds(a.before.indexed) && forall e :: e in a.before.indexed ==> e in chain
    requires Indexed(a.before.indexed, chain, lo, StartLedger(a))
    ensures var after := After(a, cfg).indexed;
      && StartLedger(a) <= Reached(a, cfg)
      && DistinctIds(after) && (forall e :: e in after ==> e in chain)
      && Indexed(after, chain, lo, Reached(a, cfg))
  {
    var after, calls, hi := After(a, cfg), RunCalls(a.before, a.inputs, cfg), StartLedger(a);
    CheckpointMovesIff(a, cfg);
    AttemptGrowsIndex(a, cfg, chain);
    if Recovers(a.before, a.inputs, cfg) {
      RecoveredIff(a.before, a.inputs, cfg);
    }
    forall e | e in chain && lo < e.ledger <= Reached(a, cfg)
      ensures e in after.indexed
    {
      if hi < e.ledger {
        assert StartsAt(a.before, a.inputs, hi);
        RecoveredRunCovers(a, cfg, chain, hi, e);
        var i :| 0 <= i < |calls| && calls[i] == InsertEvent(e);
        assert IsIndexed(after.indexed, e.id);
      }
    }
  }

  lemma IndexHistoryPrefix(runs: seq<Attempt>, cfg: Config, chain: set<Event>)
    requires IndexHistory(runs, cfg, chain) && |runs| > 1
    ensures var n := |runs| - 1; IndexHistory(runs[..n], cfg, chain) && Follows(runs[n], runs[n - 1], cfg)
  {
    var n := |runs| - 1;
    forall i | 0 <= i < n
      ensures Possible(runs[..n][i], cfg) && FaithfulWindow(runs[..n][i], chain)
    {
      assert runs[..n][i] == runs[i];
    }
    forall i | 0 < i < n
      ensures Follows(runs[..n][i], runs[..n][i - 1], cfg)
    {
      assert runs[..n][i - 1] == runs[i - 1];
    }
  }

  lemma {:induction false} LedgersNeverSkipAnEvent(runs: seq<Attempt>, cfg: Config, chain: set<Event>, first: nat)
    requires IndexHistory(runs, cfg, chain) && IsChain(chain) && runs != []
    requires StartLedger(runs[0]) == first
    requires DistinctIds(runs[0].before.indexed) && forall e :: e in runs[0].before.indexed ==> e in chain
    ensures var last := runs[|runs| - 1];
      && first <= StartLedger(last) <= Reached(last, cfg)
      && (last.before.checkpoint.Some? ==> After(last, cfg).checkpoint.Some?)
      && DistinctIds(After(last, cfg).indexed) && (forall e :: e in After(last, cfg).indexed ==> e in chain)
      && Indexed(After(last, cfg).indexed, chain, first, Reached(last, cfg))
  {
    var n := |runs| - 1;
    if n > 0 {
      IndexHistoryPrefix(runs, cfg, chain);
      LedgersNeverSkipAnEvent(runs[..n], cfg, chain, first);
      assert runs[..n][n - 1] == runs[n - 1];
      CheckpointMovesIff(runs[n - 1], cfg);
    }
    CheckpointMovesIff(runs[n], cfg);
    AttemptExtendsIndex(runs[n], cfg, chain, first);
  }

  /**
   * Over any sequence of runs, crashed, blocked or recovered, starting from a stored checkpoint, from one that the
   * state backup restores, or from neither: the stored checkpoint never decreases nor goes below the first ledger,
   * and every chain event between the first ledger and the stored checkpoint is in the index exactly once.
   */
  lemma CheckpointNeverSkipsAnEvent(runs: seq<Attempt>, cfg: Config, chain: set<Event>, first: nat)
    requires IndexHistory(runs, cfg, chain) && IsChain(chain) && runs != []
    requires var a := runs[0];
      StartsAt(a.before, a.inputs, first) || (StartsNowhere(a.before, a.inputs) && first == 0)
    requires DistinctIds(runs[0].before.indexed) && forall e :: e in runs[0].before.indexed ==> e in chain
    ensures var before, after := runs[|runs| - 1].before, After(runs[|runs| - 1], cfg);
      && (before.checkpoint.Some? ==>
            after.checkpoint.Some? && first <= before.checkpoint.value <= after.checkpoint.value)
      && (after.checkpoint.Some? ==>
            first <= after.checkpoint.value && Indexed(after.indexed, chain, first, after.checkpoint.value))
      && DistinctIds(after.indexed) && forall e :: e in after.indexed ==> e in chain
  {
    LedgersNeverSkipAnEvent(runs, cfg, chain, first);
  }

  // ---------------------------------------------------------------- where the promises end

  /**
   * A blocked run loses a fresh key exactly when the batch also holds a duplicate of it: the key is recorded
   * as processed although its action never took effect.
   */
  lemma BlockedRunLosesKeyIff(s: Stores, r: Reads, cfg: Config, key: string)
    requires !Recovers(s, r, cfg) && FreshKey(s.jobs, cfg, LedgersAt(s, r), key)
    ensures var after := ApplyAll(s, RunCalls(s, r, cfg));
      && (key in after.processed <==> DuplicateKey(s.jobs, cfg, LedgersAt(s, r), key))
      && multiset(after.effects)[key] == multiset(s.effects)[key]
  {
    ProcessedAfterRun(s, r, cfg, key);
    RunEffectCount(s, r, cfg, key);
  }

  /** From a negative checkpoint a run recovers without indexing a single event of its window. */
  lemma NegativeCheckpointSkipsBackfill(s: Stores, r: Reads, cfg: Config, prev: int)
    requires StartsAt(s, r, prev) && prev < 0 && Recovers(s, r, cfg)
    ensures var after := ApplyAll(s, RunCalls(s, r, cfg));
      after.checkpoint == Some(r.latest) && after.indexed == s.indexed
  {
    var calls := RunCalls(s, r, cfg);
    var whole := Attempt(s, r, |calls|);
    assert calls[..|calls|] == calls;
    CheckpointMovesIff(whole, cfg);
    forall i | 0 <= i < |calls|
      ensures !calls[i].InsertEvent?
    {
      RunCallShape(s, r, cfg, i);
    }
    OnlyInsertsIndex(s, calls);
  }

  lemma {:induction false} OnlyInsertsIndex(s: Stores, calls: seq<Call>)
    requires forall i :: 0 <= i < |calls| ==> !calls[i].InsertEvent?
    ensures ApplyAll(s, calls).indexed == s.indexed
  {
    if calls != [] {
      OnlyInsertsIndex(s, calls[..|calls| - 1]);
    }
  }
}
