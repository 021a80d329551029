/** What a crash in the middle of a run leaves behind, for any queue: which actions repeat, and which are buried. */
module RecoveryCrashes {
  import opened Prelude
  import opened RecoveryModel
  import opened RecoveryOrchestrator
  import opened RecoveryRuns

  // ---------------------------------------------------------------- prefixes of the execute loop

  /** The calls of the execute loop come in fours. */
  lemma {:induction false} ExecuteCallsInFours(ready: seq<Job>, hashFor: Job -> string, j: nat)
    requires j <= |ready|
    ensures |ExecuteCalls(ready, hashFor)| == 4 * |ready|
    ensures ExecuteCalls(ready, hashFor)[..4 * j] == ExecuteCalls(ready[..j], hashFor)
    decreases |ready|
  {
    if ready != [] {
      var n := |ready| - 1;
      ExecuteCallsInFours(ready[..n], hashFor, if j <= n then j else n);
      if j <= n {
        assert ready[..n][..j] == ready[..j];
      } else {
        assert ready[..j] == ready;
      }
    }
  }

  /** After n calls, one more job has been started if n is not a multiple of four. */
  lemma ExecutePrefix(ready: seq<Job>, hashFor: Job -> string, n: nat)
    requires n <= 4 * |ready|
    ensures |ExecuteCalls(ready, hashFor)| == 4 * |ready|
    ensures ExecuteCalls(ready, hashFor)[..n] == ExecuteCalls(ready[..n / 4], hashFor)
      + if n % 4 == 0 then [] else ExecuteJobCalls(ready[n / 4], hashFor(ready[n / 4]))[..n % 4]
  {
    var j := n / 4;
    ExecuteCallsInFours(ready, hashFor, j);
    if n % 4 != 0 {
      ExecuteCallsInFours(ready, hashFor, j + 1);
      assert ready[..j + 1][..j] == ready[..j];
      var four := ExecuteJobCalls(ready[j], hashFor(ready[j]));
      assert ExecuteCalls(ready[..j + 1], hashFor) == ExecuteCalls(ready[..j], hashFor) + four;
      assert ExecuteCalls(ready, hashFor)[..n] == ExecuteCalls(ready, hashFor)[..4 * (j + 1)][..n];
      assert (ExecuteCalls(ready[..j], hashFor) + four)[..n] == ExecuteCalls(ready[..j], hashFor) + four[..n % 4];
    }
  }

  /** How many of m jobs have landed, and have been recorded, after n calls of the execute loop. */
  function Landed(n: nat, m: nat): nat { if (n + 3) / 4 < m then (n + 3) / 4 else m }

  function Recorded(n: nat, m: nat): nat { if (n + 2) / 4 < m then (n + 2) / 4 else m }

  lemma JobCallsPrefix(job: Job, hash: string, r: nat)
    requires 0 < r < 4
    ensures EffectsOf(ExecuteJobCalls(job, hash)[..r]) == [job.key]
    ensures KeysRecordedBy(ExecuteJobCalls(job, hash)[..r]) == if r >= 2 then {job.key} else {}
  {
    var calls := ExecuteJobCalls(job, hash)[..r];
    assert calls == [Execute(job)] + calls[1..];
    NoExecuteNoEffects(calls[1..]);
    EffectsConcat([Execute(job)], calls[1..]);
    assert r >= 2 ==> calls[1] == RecordKey(job.key);
  }

  lemma CountsByFours(n: nat, m: nat)
    requires n <= 4 * m
    ensures n / 4 <= m && (n % 4 != 0 ==> n / 4 < m)
    ensures Landed(n, m) == n / 4 + if n % 4 == 0 then 0 else 1
    ensures Recorded(n, m) == n / 4 + if n % 4 < 2 then 0 else 1
  {
  }

  lemma KeysOfOneMore(ready: seq<Job>, j: nat)
    requires j < |ready|
    ensures Keys(ready[..j + 1]) == Keys(ready[..j]) + [ready[j].key]
  {
  }

  lemma LandedEffects(ready: seq<Job>, hashFor: Job -> string, n: nat)
    requires n <= 4 * |ready|
    ensures |ExecuteCalls(ready, hashFor)| == 4 * |ready|
    ensures EffectsOf(ExecuteCalls(ready, hashFor)[..n]) == Keys(ready[..Landed(n, |ready|)])
  {
    var j := n / 4;
    CountsByFours(n, |ready|);
    ExecutePrefix(ready, hashFor, n);
    ExecuteEffects(ready[..j], hashFor);
    if n % 4 != 0 {
      var some := ExecuteJobCalls(ready[j], hashFor(ready[j]))[..n % 4];
      JobCallsPrefix(ready[j], hashFor(ready[j]), n % 4);
      EffectsConcat(ExecuteCalls(ready[..j], hashFor), some);
      KeysOfOneMore(ready, j);
    } else {
      assert ExecuteCalls(ready[..j], hashFor) + [] == ExecuteCalls(ready[..j], hashFor);
    }
  }

  lemma RecordedKeys(ready: seq<Job>, hashFor: Job -> string, n: nat, key: string)
    requires n <= 4 * |ready|
    ensures |ExecuteCalls(ready, hashFor)| == 4 * |ready|
    ensures key in KeysRecordedBy(ExecuteCalls(ready, hashFor)[..n]) <==> key in Keys(ready[..Recorded(n, |ready|)])
  {
    var j := n / 4;
    CountsByFours(n, |ready|);
    ExecutePrefix(ready, hashFor, n);
    RecordedSoFar(ready[..j], hashFor, key);
    if n % 4 != 0 {
      var some := ExecuteJobCalls(ready[j], hashFor(ready[j]))[..n % 4];
      JobCallsPrefix(ready[j], hashFor(ready[j]), n % 4);
      RecordedConcat(ExecuteCalls(ready[..j], hashFor), some);
      KeysOfOneMore(ready, j);
    } else {
      assert ExecuteCalls(ready[..j], hashFor) + [] == ExecuteCalls(ready[..j], hashFor);
    }
  }

  lemma RecordedSoFar(ready: seq<Job>, hashFor: Job -> string, key: string)
    ensures key in KeysRecordedBy(ExecuteCalls(ready, hashFor)) <==> key in Keys(ready)
  {
    ExecuteEffects(ready, hashFor);
  }

  // ---------------------------------------------------------------- prefixes of a run

  /** The calls before the gate: the backfill and the deduplication. */
  function BeforeGate(s: Stores, r: Reads, cfg: Config): seq<Call> {
    BackfillCalls(PreviousLedger(s, r), r) + Plan(s, r, cfg).calls
  }

  /** The jobs whose action has landed when n calls have been made past the gate. */
  function LandedJobs(s: Stores, r: Reads, cfg: Config, n: nat): seq<Job> {
    var ready := Plan(s, r, cfg).ready;
    if Recovers(s, r, cfg) then ready[..Landed(n, |ready|)] else []
  }

  function RecordedJobs(s: Stores, r: Reads, cfg: Config, n: nat): seq<Job> {
    var ready := Plan(s, r, cfg).ready;
    if Recovers(s, r, cfg) then ready[..Recorded(n, |ready|)] else []
  }

  /** The execute loop and the saving of the checkpoint, cut after n calls. */
  function LoopSoFar(loop: seq<Call>, save: Call, n: nat): seq<Call> {
    if n <= |loop| then loop[..n] else loop + [save]
  }

  /** The calls past the gate are those of the execute loop, until the checkpoint is saved. */
  lemma GateIsLoop(s: Stores, r: Reads, cfg: Config, n: nat)
    requires Recovers(s, r, cfg) && n <= |GateCalls(s, r, cfg)|
    ensures var ready := Plan(s, r, cfg).ready;
      var loop := ExecuteCalls(ready, r.hashFor);
      |loop| == 4 * |ready| && GateCalls(s, r, cfg)[..n] == LoopSoFar(loop, SaveCheckpoint(r.latest), n)
  {
    ExecuteCallsInFours(Plan(s, r, cfg).ready, r.hashFor, 0);
  }

  lemma AllLanded(n: nat, m: nat)
    requires n > 4 * m
    ensures Landed(n, m) == m && Recorded(n, m) == m
  {
  }

  lemma LoopEffectsSoFar(ready: seq<Job>, hashFor: Job -> string, latest: int, n: nat)
    ensures EffectsOf(LoopSoFar(ExecuteCalls(ready, hashFor), SaveCheckpoint(latest), n))
         == Keys(ready[..Landed(n, |ready|)])
  {
    ExecuteCallsInFours(ready, hashFor, 0);
    if n <= 4 * |ready| {
      LandedEffects(ready, hashFor, n);
      assert LoopSoFar(ExecuteCalls(ready, hashFor), SaveCheckpoint(latest), n) == ExecuteCalls(ready, hashFor)[..n];
    } else {
      LoopEffectsAtTheEnd(ready, hashFor, latest, n);
    }
  }

  lemma LoopEffectsAtTheEnd(ready: seq<Job>, hashFor: Job -> string, latest: int, n: nat)
    requires n > 4 * |ready| == |ExecuteCalls(ready, hashFor)|
    ensures EffectsOf(LoopSoFar(ExecuteCalls(ready, hashFor), SaveCheckpoint(latest), n))
         == Keys(ready[..Landed(n, |ready|)])
  {
    AllLanded(n, |ready|);
    WholeLoopEffects(ready, hashFor, latest);
    assert ready[..Landed(n, |ready|)] == ready;
    assert LoopSoFar(ExecuteCalls(ready, hashFor), SaveCheckpoint(latest), n)
        == ExecuteCalls(ready, hashFor) + [SaveCheckpoint(latest)];
  }

  lemma GateEffectsSoFar(s: Stores, r: Reads, cfg: Config, n: nat)
    requires n <= |GateCalls(s, r, cfg)|
    ensures EffectsOf(GateCalls(s, r, cfg)[..n]) == Keys(LandedJobs(s, r, cfg, n))
  {
    if Recovers(s, r, cfg) {
      GateIsLoop(s, r, cfg, n);
      LoopEffectsSoFar(Plan(s, r, cfg).ready, r.hashFor, r.latest, n);
    } else {
      BlockNeverExecutes(Plan(s, r, cfg).ready);
      NoExecuteNoEffects(GateCalls(s, r, cfg)[..n]);
    }
  }

  lemma NothingRecorded(calls: seq<Call>, key: string)
    requires forall i :: 0 <= i < |calls| ==> !calls[i].RecordKey?
    ensures key !in KeysRecordedBy(calls)
  {
  }

  lemma WholeLoopRecords(ready: seq<Job>, hashFor: Job -> string, latest: int, key: string)
    ensures key in KeysRecordedBy(ExecuteCalls(ready, hashFor) + [SaveCheckpoint(latest)]) <==> key in Keys(ready)
  {
    RecordedSoFar(ready, hashFor, key);
    RecordedConcat(ExecuteCalls(ready, hashFor), [SaveCheckpoint(latest)]);
    NothingRecorded([SaveCheckpoint(latest)], key);
  }

  lemma LoopRecordsSoFar(ready: seq<Job>, hashFor: Job -> string, latest: int, n: nat, key: string)
    ensures key in KeysRecordedBy(LoopSoFar(ExecuteCalls(ready, hashFor), SaveCheckpoint(latest), n))
      <==> key in Keys(ready[..Recorded(n, |ready|)])
  {
    ExecuteCallsInFours(ready, hashFor, 0);
    if n <= 4 * |ready| {
      RecordedKeys(ready, hashFor, n, key);
      assert LoopSoFar(ExecuteCalls(ready, hashFor), SaveCheckpoint(latest), n) == ExecuteCalls(ready, hashFor)[..n];
    } else {
      LoopRecordsAtTheEnd(ready, hashFor, latest, n, key);
    }
  }

  lemma LoopRecordsAtTheEnd(ready: seq<Job>, hashFor: Job -> string, latest: int, n: nat, key: string)
    requires n > 4 * |ready| == |ExecuteCalls(ready, hashFor)|
    ensures key in KeysRecordedBy(LoopSoFar(ExecuteCalls(ready, hashFor), SaveCheckpoint(latest), n))
      <==> key in Keys(ready[..Recorded(n, |ready|)])
  {
    AllLanded(n, |ready|);
    WholeLoopRecords(ready, hashFor, latest, key);
    assert ready[..Recorded(n, |ready|)] == ready;
    assert LoopSoFar(ExecuteCalls(ready, hashFor), SaveCheckpoint(latest), n)
        == ExecuteCalls(ready, hashFor) + [SaveCheckpoint(latest)];
  }

  lemma GateRecordsSoFar(s: Stores, r: Reads, cfg: Config, n: nat, key: string)
    requires n <= |GateCalls(s, r, cfg)|
    ensures key in KeysRecordedBy(GateCalls(s, r, cfg)[..n]) <==> key in Keys(RecordedJobs(s, r, cfg, n))
  {
    var ready := Plan(s, r, cfg).ready;
    if Recovers(s, r, cfg) {
      GateIsLoop(s, r, cfg, n);
      LoopRecordsSoFar(ready, r.hashFor, r.latest, n, key);
    } else {
      BlockNeverExecutes(ready);
      NothingRecorded(GateCalls(s, r, cfg)[..n], key);
    }
  }

  lemma NothingLandsBeforeTheGate(s: Stores, r: Reads, cfg: Config)
    ensures EffectsOf(BeforeGate(s, r, cfg)) == []
  {
    DedupOnlyBookkeeps(s.jobs, cfg, LedgersAt(s, r));
    NoExecuteNoEffects(BeforeGate(s, r, cfg));
  }

  lemma RecordedBeforeTheGate(s: Stores, r: Reads, cfg: Config, key: string)
    ensures key in KeysRecordedBy(BeforeGate(s, r, cfg)) <==> DuplicateKey(s.jobs, cfg, LedgersAt(s, r), key)
  {
    RecordedConcat(BackfillCalls(PreviousLedger(s, r), r), Plan(s, r, cfg).calls);
    DedupRecords(s.jobs, cfg, LedgersAt(s, r), key);
  }

  /** A run that crashes n calls past the gate. */
  function CrashPastGate(s: Stores, r: Reads, cfg: Config, n: nat): Attempt {
    Attempt(s, r, |BeforeGate(s, r, cfg)| + n)
  }

  lemma CrashPastGateIs(s: Stores, r: Reads, cfg: Config, n: nat)
    requires n <= |GateCalls(s, r, cfg)|
    ensures Possible(CrashPastGate(s, r, cfg, n), cfg)
    ensures After(CrashPastGate(s, r, cfg, n), cfg) == ApplyAll(s, BeforeGate(s, r, cfg) + GateCalls(s, r, cfg)[..n])
  {
    var before, gate := BeforeGate(s, r, cfg), GateCalls(s, r, cfg);
    assert RunCalls(s, r, cfg) == before + gate;
    assert (before + gate)[..|before| + n] == before + gate[..n];
  }

  lemma EffectsAfterCrash(s: Stores, r: Reads, cfg: Config, n: nat)
    requires n <= |GateCalls(s, r, cfg)|
    ensures ApplyAll(s, BeforeGate(s, r, cfg) + GateCalls(s, r, cfg)[..n]).effects
         == s.effects + Keys(LandedJobs(s, r, cfg, n))
  {
    var before, gate := BeforeGate(s, r, cfg), GateCalls(s, r, cfg)[..n];
    EffectsAccumulate(s, before + gate);
    EffectsConcat(before, gate);
    NothingLandsBeforeTheGate(s, r, cfg);
    GateEffectsSoFar(s, r, cfg, n);
    assert [] + EffectsOf(gate) == EffectsOf(gate);
  }

  lemma ProcessedAfterCrash(s: Stores, r: Reads, cfg: Config, n: nat, key: string)
    requires n <= |GateCalls(s, r, cfg)|
    ensures key in ApplyAll(s, BeforeGate(s, r, cfg) + GateCalls(s, r, cfg)[..n]).processed <==>
      || key in s.processed || DuplicateKey(s.jobs, cfg, LedgersAt(s, r), key)
      || key in Keys(RecordedJobs(s, r, cfg, n))
  {
    var before, gate := BeforeGate(s, r, cfg), GateCalls(s, r, cfg)[..n];
    EffectsAccumulate(s, before + gate);
    RecordedConcat(before, gate);
    RecordedBeforeTheGate(s, r, cfg, key);
    GateRecordsSoFar(s, r, cfg, n, key);
  }

  /** What has landed and what Redis remembers after such a crash. */
  lemma AfterCrashPastGate(s: Stores, r: Reads, cfg: Config, n: nat, key: string)
    requires n <= |GateCalls(s, r, cfg)|
    ensures Possible(CrashPastGate(s, r, cfg, n), cfg)
    ensures var after := After(CrashPastGate(s, r, cfg, n), cfg);
      && after.effects == s.effects + Keys(LandedJobs(s, r, cfg, n))
      && (key in after.processed <==>
            || key in s.processed || DuplicateKey(s.jobs, cfg, LedgersAt(s, r), key)
            || key in Keys(RecordedJobs(s, r, cfg, n)))
  {
    CrashPastGateIs(s, r, cfg, n);
    EffectsAfterCrash(s, r, cfg, n);
    ProcessedAfterCrash(s, r, cfg, n, key);
  }

  // ---------------------------------------------------------------- buried actions

  /** Redis remembers the key as processed, but its action took no effect. */
  predicate Buried(s: Stores, after: Stores, key: string) {
    key in after.processed && multiset(after.effects)[key] == multiset(s.effects)[key]
  }

  lemma CountAppended(a: seq<string>, b: seq<string>, x: string)
    ensures multiset(a + b)[x] == multiset(a)[x] + multiset(b)[x]
  {
  }

  /**
   * A run that stops anywhere past its deduplication, because it crashes or because it is blocked, buries a fresh key
   * exactly when the batch also holds a duplicate of it and its own copy has not landed yet.
   */
  lemma CrashBuriesKeyIff(s: Stores, r: Reads, cfg: Config, n: nat, key: string)
    requires n <= |GateCalls(s, r, cfg)| && FreshKey(s.jobs, cfg, LedgersAt(s, r), key)
    ensures Possible(CrashPastGate(s, r, cfg, n), cfg)
    ensures Buried(s, After(CrashPastGate(s, r, cfg, n), cfg), key) <==>
      DuplicateKey(s.jobs, cfg, LedgersAt(s, r), key) && key !in Keys(LandedJobs(s, r, cfg, n))
  {
    var landed := LandedJobs(s, r, cfg, n);
    AfterCrashPastGate(s, r, cfg, n, key);
    CountAppended(s.effects, Keys(landed), key);
    RecordedHaveLanded(s, r, cfg, n, key);
    assert key in Keys(landed) <==> key in multiset(Keys(landed));
  }

  lemma RecordedHaveLanded(s: Stores, r: Reads, cfg: Config, n: nat, key: string)
    ensures key in Keys(RecordedJobs(s, r, cfg, n)) ==> key in Keys(LandedJobs(s, r, cfg, n))
  {
    var recorded, landed := RecordedJobs(s, r, cfg, n), LandedJobs(s, r, cfg, n);
    if key in Keys(recorded) {
      var i :| 0 <= i < |recorded| && recorded[i].key == key;
      assert landed[i] == recorded[i];
      assert Keys(landed)[i] == key;
    }
  }

  // ---------------------------------------------------------------- what the calls do to the queue and the database

  /** The first fresh copy of its key: the one that becomes ready. */
  ghost predicate ReadyAt(jobs: seq<Job>, cfg: Config, k: Ledgers, i: nat)
    requires i < |jobs|
  {
    Fresh(jobs[i], cfg, k) && !FreshKey(jobs[..i], cfg, k, jobs[i].key)
  }

  lemma {:induction false} ReadyComesFrom(jobs: seq<Job>, cfg: Config, k: Ledgers, j: nat) returns (i: nat)
    requires j < |DedupAll(jobs, cfg, k).ready|
    ensures i < |jobs| && jobs[i] == DedupAll(jobs, cfg, k).ready[j] && ReadyAt(jobs, cfg, k, i)
    decreases |jobs|
  {
    var n := |jobs| - 1;
    if j < |DedupAll(jobs[..n], cfg, k).ready| {
      i := ReadyComesFrom(jobs[..n], cfg, k, j);
      assert jobs[..n][..i] == jobs[..i];
    } else {
      i := n;
      SeenAreFreshKeys(jobs[..n], cfg, k, jobs[n].key);
    }
  }

  /** A mark that never puts a job in flight, on a job that is not ready. */
  ghost predicate MarksAnother(jobs: seq<Job>, cfg: Config, k: Ledgers, call: Call) {
    call.MarkStatus? ==>
      call.status != InFlight && exists i :: 0 <= i < |jobs| && jobs[i].id == call.jobId && !ReadyAt(jobs, cfg, k, i)
  }

  lemma MarksAnotherInFront(jobs: seq<Job>, cfg: Config, k: Ledgers, call: Call)
    requires jobs != [] && MarksAnother(jobs[..|jobs| - 1], cfg, k, call)
    ensures MarksAnother(jobs, cfg, k, call)
  {
    var front := jobs[..|jobs| - 1];
    if call.MarkStatus? {
      var i :| 0 <= i < |front| && front[i].id == call.jobId && !ReadyAt(front, cfg, k, i);
      assert front[..i] == jobs[..i];
      assert jobs[i].id == call.jobId && !ReadyAt(jobs, cfg, k, i);
    }
  }

  lemma {:induction false} DedupMarksOthers(jobs: seq<Job>, cfg: Config, k: Ledgers)
    ensures forall c :: c in DedupAll(jobs, cfg, k).calls ==> MarksAnother(jobs, cfg, k, c)
  {
    if jobs != [] {
      var n := |jobs| - 1;
      var before := DedupAll(jobs[..n], cfg, k);
      DedupMarksOthers(jobs[..n], cfg, k);
      SeenAreFreshKeys(jobs[..n], cfg, k, jobs[n].key);
      forall c | c in DedupAll(jobs, cfg, k).calls
        ensures MarksAnother(jobs, cfg, k, c)
      {
        if c in before.calls {
          MarksAnotherInFront(jobs, cfg, k, c);
        } else if c.MarkStatus? {
          assert jobs[n].id == c.jobId && !ReadyAt(jobs, cfg, k, n);
        }
      }
    }
  }

  lemma {:induction false} LoopMarksItsJobs(ready: seq<Job>, hashFor: Job -> string)
    ensures forall c :: c in ExecuteCalls(ready, hashFor) && c.MarkStatus? ==>
      c.status != InFlight && c.jobId in Ids(ready)
  {
    if ready != [] {
      var n := |ready| - 1;
      LoopMarksItsJobs(ready[..n], hashFor);
      IdsOfLast(ready);
    }
  }

  /** What a database record is preceded by: the key is in Redis already. */
  ghost predicate RedisFirst(calls: seq<Call>) {
    forall c :: c in calls && c.RecordExecuted? ==> RecordKey(c.key) in calls
  }

  lemma {:induction false} DedupRecordsRedisFirst(jobs: seq<Job>, cfg: Config, k: Ledgers)
    ensures RedisFirst(DedupAll(jobs, cfg, k).calls)
  {
    if jobs != [] {
      DedupRecordsRedisFirst(jobs[..|jobs| - 1], cfg, k);
      assert DuplicateCalls(k, jobs[|jobs| - 1])[1] == RecordKey(jobs[|jobs| - 1].key);
    }
  }

  lemma {:induction false} LoopRecordsRedisFirst(ready: seq<Job>, hashFor: Job -> string)
    ensures RedisFirst(ExecuteCalls(ready, hashFor))
  {
    if ready != [] {
      var job := ready[|ready| - 1];
      LoopRecordsRedisFirst(ready[..|ready| - 1], hashFor);
      assert ExecuteJobCalls(job, hashFor(job))[1] == RecordKey(job.key);
    }
  }

  function HashesRecordedBy(calls: seq<Call>): set<string> {
    set c | c in calls && c.RecordExecuted? :: c.hash
  }

  lemma {:induction false} DatabaseAfter(s: Stores, calls: seq<Call>)
    requires forall c :: c in calls ==> !c.SaveCheckpoint?
    ensures var after := ApplyAll(s, calls);
      && after.checkpoint == s.checkpoint
      && (forall key :: key in after.keys ==> key in s.keys || exists c :: c in calls && c.RecordExecuted? && c.key == key)
      && (forall h :: h in after.hashes <==> h in s.hashes || h in HashesRecordedBy(calls))
  {
    if calls != [] {
      var n := |calls| - 1;
      DatabaseAfter(s, calls[..n]);
      assert calls == calls[..n] + [calls[n]];
    }
  }

  /** The same job, except for its status and its hash, and not put in flight. */
  predicate Kin(a: Job, b: Job) {
    b == a.(status := b.status, txHash := b.txHash) && (b.status == InFlight ==> a.status == InFlight)
  }

  lemma {:induction false} MarkingKeepsKin(jobs: seq<Job>, id: string, status: Status, hash: string)
    requires status != InFlight
    ensures var after := MarkFirst(jobs, id, status, hash);
      && |after| == |jobs|
      && forall i :: 0 <= i < |jobs| ==> Kin(jobs[i], after[i]) && (jobs[i].id != id ==> after[i] == jobs[i])
  {
    if jobs != [] && jobs[0].id != id {
      MarkingKeepsKin(jobs[1..], id, status, hash);
    }
  }

  /** Every job stays itself, and one that no call marks stays exactly as it was. */
  lemma {:induction false} QueueAfter(s: Stores, calls: seq<Call>)
    requires forall c :: c in calls && c.MarkStatus? ==> c.status != InFlight
    ensures var after := ApplyAll(s, calls).jobs;
      && |after| == |s.jobs|
      && (forall i :: 0 <= i < |after| ==> Kin(s.jobs[i], after[i]))
      && forall i :: 0 <= i < |after| && (forall c :: c in calls && c.MarkStatus? ==> c.jobId != s.jobs[i].id) ==>
           after[i] == s.jobs[i]
  {
    if calls != [] {
      var n := |calls| - 1;
      QueueAfter(s, calls[..n]);
      assert calls == calls[..n] + [calls[n]];
      if calls[n].MarkStatus? {
        MarkingKeepsKin(ApplyAll(s, calls[..n]).jobs, calls[n].jobId, calls[n].status, calls[n].hash);
      }
    }
  }

  // ---------------------------------------------------------------- repeated actions

  /** What a crash leaves of a queue: kin of its jobs, with every key set aside as a duplicate in Redis. */
  ghost predicate LeftOver(s: Stores, mid: Stores, r: Reads, cfg: Config) {
    && mid.checkpoint == s.checkpoint
    && |mid.jobs| == |s.jobs| && (forall i :: 0 <= i < |s.jobs| ==> Kin(s.jobs[i], mid.jobs[i]))
    && forall i :: 0 <= i < |s.jobs| && DuplicateAt(s.jobs, cfg, LedgersAt(s, r), i) ==> s.jobs[i].key in mid.processed
  }

  /** If nothing stood in the way of the first run, nothing stands in the way of the same run after a crash. */
  lemma RerunRecovers(s: Stores, mid: Stores, r: Reads, cfg: Config)
    requires Recovers(s, r, cfg) && LeftOver(s, mid, r, cfg)
    ensures Recovers(mid, r, cfg)
  {
    var k := LedgersAt(s, r);
    RecoveredIff(s, r, cfg);
    RecoveredIff(mid, r, cfg);
    forall i | 0 <= i < |mid.jobs|
      ensures WellFormed(mid.jobs[i], cfg) && !AmbiguousAt(mid.jobs, cfg, LedgersAt(mid, r), i)
    {
      assert Kin(s.jobs[i], mid.jobs[i]);
      assert WellFormed(s.jobs[i], cfg) && !AmbiguousAt(s.jobs, cfg, k, i);
    }
  }

  /** In an unambiguous queue the ready copy of a key without duplicates is the only job with that key. */
  lemma OnlyCopy(jobs: seq<Job>, cfg: Config, k: Ledgers, i: nat, x: nat)
    requires QueueUnambiguous(jobs, cfg, k) && i < |jobs| && x < |jobs| && jobs[x].key == jobs[i].key
    requires ReadyAt(jobs, cfg, k, i) && !DuplicateKey(jobs, cfg, k, jobs[i].key)
    ensures x == i
  {
    assert WellFormed(jobs[x], cfg) && !AmbiguousAt(jobs, cfg, k, x) && !DuplicateAt(jobs, cfg, k, x);
    assert Fresh(jobs[x], cfg, k);
    FreshCopyBefore(jobs, cfg, k, i, x);
    FreshCopyBefore(jobs, cfg, k, x, i);
  }

  lemma FreshCopyBefore(jobs: seq<Job>, cfg: Config, k: Ledgers, i: nat, x: nat)
    requires i < |jobs| && x < |jobs|
    ensures i < x && Fresh(jobs[i], cfg, k) ==> FreshKey(jobs[..x], cfg, k, jobs[i].key)
  {
    if i < x && Fresh(jobs[i], cfg, k) {
      assert jobs[..x][i] == jobs[i];
    }
  }

  predicate HashClash(job: Job, hashes: set<string>) { job.txHash.Some? && job.txHash.value in hashes }

  /** The ready copy of a key is fresh again after a crash, unless Redis or the database has learned of it. */
  lemma FreshAgainIff(s: Stores, mid: Stores, r: Reads, cfg: Config, i: nat, hashes: set<string>)
    requires Recovers(s, r, cfg) && LeftOver(s, mid, r, cfg)
    requires i < |s.jobs| && ReadyAt(s.jobs, cfg, LedgersAt(s, r), i) && mid.jobs[i] == s.jobs[i]
    requires s.jobs[i].key in mid.processed <==> DuplicateKey(s.jobs, cfg, LedgersAt(s, r), s.jobs[i].key)
    requires s.jobs[i].key in mid.keys ==> s.jobs[i].key in mid.processed
    requires forall h :: h in mid.hashes <==> h in s.hashes || h in hashes
    ensures FreshKey(mid.jobs, cfg, LedgersAt(mid, r), s.jobs[i].key) <==>
      !DuplicateKey(s.jobs, cfg, LedgersAt(s, r), s.jobs[i].key) && !HashClash(s.jobs[i], hashes)
  {
    var k, k2, key := LedgersAt(s, r), LedgersAt(mid, r), s.jobs[i].key;
    RecoveredIff(s, r, cfg);
    assert !DuplicateKey(s.jobs, cfg, k, key) && !HashClash(s.jobs[i], hashes) ==> Fresh(mid.jobs[i], cfg, k2);
    if FreshKey(mid.jobs, cfg, k2, key) {
      var x :| 0 <= x < |mid.jobs| && mid.jobs[x].key == key && Fresh(mid.jobs[x], cfg, k2);
      assert Kin(s.jobs[x], mid.jobs[x]);
      OnlyCopy(s.jobs, cfg, k, i, x);
    }
  }

  /** The calls made when the j-th ready action has landed and nothing of it is recorded yet. */
  function UpToLanding(s: Stores, r: Reads, cfg: Config, j: nat): seq<Call>
    requires j < |Plan(s, r, cfg).ready|
  {
    var ready := Plan(s, r, cfg).ready;
    BeforeGate(s, r, cfg) + (ExecuteCalls(ready[..j], r.hashFor) + [Execute(ready[j])])
  }

  lemma GateUpToLanding(s: Stores, r: Reads, cfg: Config, j: nat)
    requires Recovers(s, r, cfg) && j < |Plan(s, r, cfg).ready| && 4 * j + 1 <= |GateCalls(s, r, cfg)|
    ensures var ready := Plan(s, r, cfg).ready;
      GateCalls(s, r, cfg)[..4 * j + 1] == ExecuteCalls(ready[..j], r.hashFor) + [Execute(ready[j])]
  {
    LoopUpToLanding(Plan(s, r, cfg).ready, r.hashFor, j);
    GateIsLoop(s, r, cfg, 4 * j + 1);
  }

  lemma GateLength(s: Stores, r: Reads, cfg: Config)
    requires Recovers(s, r, cfg)
    ensures |GateCalls(s, r, cfg)| == 4 * |Plan(s, r, cfg).ready| + 1
  {
    ExecuteCallsInFours(Plan(s, r, cfg).ready, r.hashFor, 0);
  }

  lemma PrefixUpToLanding(s: Stores, r: Reads, cfg: Config, j: nat)
    requires Recovers(s, r, cfg) && j < |Plan(s, r, cfg).ready|
    ensures 4 * j + 1 <= |GateCalls(s, r, cfg)|
    ensures BeforeGate(s, r, cfg) + GateCalls(s, r, cfg)[..4 * j + 1] == UpToLanding(s, r, cfg, j)
  {
    GateLength(s, r, cfg);
    GateUpToLanding(s, r, cfg, j);
  }

  lemma CrashAfterLanding(s: Stores, r: Reads, cfg: Config, j: nat)
    requires Recovers(s, r, cfg) && j < |Plan(s, r, cfg).ready|
    ensures 4 * j + 1 <= |GateCalls(s, r, cfg)| && Possible(CrashPastGate(s, r, cfg, 4 * j + 1), cfg)
    ensures After(CrashPastGate(s, r, cfg, 4 * j + 1), cfg) == ApplyAll(s, UpToLanding(s, r, cfg, j))
  {
    PrefixUpToLanding(s, r, cfg, j);
    CrashPastGateIs(s, r, cfg, 4 * j + 1);
  }

  lemma LoopUpToLanding(ready: seq<Job>, hashFor: Job -> string, j: nat)
    requires j < |ready|
    ensures |ExecuteCalls(ready, hashFor)| == 4 * |ready|
    ensures ExecuteCalls(ready, hashFor)[..4 * j + 1] == ExecuteCalls(ready[..j], hashFor) + [Execute(ready[j])]
  {
    QuarterOf(j, |ready|);
    ExecutePrefix(ready, hashFor, 4 * j + 1);
    assert ExecuteJobCalls(ready[j], hashFor(ready[j]))[..1] == [Execute(ready[j])];
  }

  lemma QuarterOf(j: nat, m: nat)
    requires j < m
    ensures (4 * j + 1) / 4 == j && (4 * j + 1) % 4 == 1
    ensures Landed(4 * j + 1, m) == j + 1 && Recorded(4 * j + 1, m) == j
  {
  }

  lemma UpToLandingMembers(s: Stores, r: Reads, cfg: Config, j: nat, c: Call)
    requires j < |Plan(s, r, cfg).ready| && c in UpToLanding(s, r, cfg, j)
    ensures
      || c.InsertEvent? || c.Execute?
      || c in Plan(s, r, cfg).calls || c in ExecuteCalls(Plan(s, r, cfg).ready[..j], r.hashFor)
  {
  }

  lemma UpToLandingRecordsRedisFirst(s: Stores, r: Reads, cfg: Config, j: nat)
    requires j < |Plan(s, r, cfg).ready|
    ensures RedisFirst(UpToLanding(s, r, cfg, j))
  {
    DedupRecordsRedisFirst(s.jobs, cfg, LedgersAt(s, r));
    LoopRecordsRedisFirst(Plan(s, r, cfg).ready[..j], r.hashFor);
    forall c | c in UpToLanding(s, r, cfg, j) && c.RecordExecuted?
      ensures RecordKey(c.key) in UpToLanding(s, r, cfg, j)
    {
      UpToLandingMembers(s, r, cfg, j, c);
    }
  }

  lemma UpToLandingIsTame(s: Stores, r: Reads, cfg: Config, j: nat, c: Call)
    requires j < |Plan(s, r, cfg).ready| && c in UpToLanding(s, r, cfg, j)
    ensures !c.SaveCheckpoint?
    ensures c.MarkStatus? ==>
      && c.status != InFlight
      && (MarksAnother(s.jobs, cfg, LedgersAt(s, r), c) || c.jobId in Ids(Plan(s, r, cfg).ready[..j]))
  {
    var ready := Plan(s, r, cfg).ready;
    UpToLandingMembers(s, r, cfg, j, c);
    DedupOnlyBookkeeps(s.jobs, cfg, LedgersAt(s, r));
    DedupMarksOthers(s.jobs, cfg, LedgersAt(s, r));
    ExecuteEffects(ready[..j], r.hashFor);
    LoopMarksItsJobs(ready[..j], r.hashFor);
  }

  /** With distinct job ids nothing marks the job whose action has just landed. */
  lemma LandedJobIsUnmarked(s: Stores, r: Reads, cfg: Config, j: nat, i: nat, c: Call)
    requires Distinct(Ids(s.jobs)) && j < |Plan(s, r, cfg).ready|
    requires i < |s.jobs| && s.jobs[i] == Plan(s, r, cfg).ready[j] && ReadyAt(s.jobs, cfg, LedgersAt(s, r), i)
    requires c in UpToLanding(s, r, cfg, j) && c.MarkStatus?
    ensures c.jobId != s.jobs[i].id
  {
    UpToLandingIsTame(s, r, cfg, j, c);
    if MarksAnother(s.jobs, cfg, LedgersAt(s, r), c) {
      AnotherHasAnotherId(s.jobs, cfg, LedgersAt(s, r), i, c);
    } else {
      ReadyIdsDiffer(s.jobs, cfg, LedgersAt(s, r), j, i, c.jobId);
    }
  }

  lemma AnotherHasAnotherId(jobs: seq<Job>, cfg: Config, k: Ledgers, i: nat, c: Call)
    requires Distinct(Ids(jobs)) && i < |jobs| && ReadyAt(jobs, cfg, k, i)
    requires MarksAnother(jobs, cfg, k, c) && c.MarkStatus?
    ensures c.jobId != jobs[i].id
  {
    var x :| 0 <= x < |jobs| && jobs[x].id == c.jobId && !ReadyAt(jobs, cfg, k, x);
    assert Ids(jobs)[x] != Ids(jobs)[i];
  }

  lemma ReadyIdsDiffer(jobs: seq<Job>, cfg: Config, k: Ledgers, j: nat, i: nat, id: string)
    requires Distinct(Ids(jobs)) && j < |DedupAll(jobs, cfg, k).ready|
    requires i < |jobs| && jobs[i] == DedupAll(jobs, cfg, k).ready[j]
    requires id in Ids(DedupAll(jobs, cfg, k).ready[..j])
    ensures id != jobs[i].id
  {
    var ready := DedupAll(jobs, cfg, k).ready;
    var q :| 0 <= q < j && Ids(ready[..j])[q] == id;
    var x := ReadyComesFrom(jobs, cfg, k, q);
    ReadyIsFreshAndDistinct(jobs, cfg, k);
    assert Keys(ready)[q] != Keys(ready)[j];
    assert Ids(jobs)[x] != Ids(jobs)[i];
  }

  /** What the stores look like when the j-th ready action has just landed. */
  lemma JustLanded(s: Stores, r: Reads, cfg: Config, j: nat, i: nat)
    requires Recovers(s, r, cfg) && Distinct(Ids(s.jobs)) && j < |Plan(s, r, cfg).ready|
    requires i < |s.jobs| && s.jobs[i] == Plan(s, r, cfg).ready[j] && ReadyAt(s.jobs, cfg, LedgersAt(s, r), i)
    ensures var mid, key := ApplyAll(s, UpToLanding(s, r, cfg, j)), s.jobs[i].key;
      && LeftOver(s, mid, r, cfg) && mid.jobs[i] == s.jobs[i]
      && multiset(mid.effects)[key] == multiset(s.effects)[key] + 1
      && (key in mid.processed <==> DuplicateKey(s.jobs, cfg, LedgersAt(s, r), key))
      && (key in mid.keys ==> key in mid.processed)
      && (forall h :: h in mid.hashes <==> h in s.hashes || h in HashesRecordedBy(UpToLanding(s, r, cfg, j)))
  {
    var calls := UpToLanding(s, r, cfg, j);
    var mid := ApplyAll(s, calls);
    UpToLandingRecordsRedisFirst(s, r, cfg, j);
    forall c | c in calls
      ensures !c.SaveCheckpoint? && (c.MarkStatus? ==> c.status != InFlight)
    {
      UpToLandingIsTame(s, r, cfg, j, c);
    }
    DatabaseAfter(s, calls);
    QueueAfter(s, calls);
    forall c | c in calls && c.MarkStatus?
      ensures c.jobId != s.jobs[i].id
    {
      LandedJobIsUnmarked(s, r, cfg, j, i, c);
    }
    RedisAfterLanding(s, r, cfg, j, s.jobs[i].key);
    LandedOnceMore(s, r, cfg, j);
    forall x | 0 <= x < |s.jobs| && DuplicateAt(s.jobs, cfg, LedgersAt(s, r), x)
      ensures s.jobs[x].key in mid.processed
    {
      RedisAfterLanding(s, r, cfg, j, s.jobs[x].key);
    }
    DbKeyIsInRedis(s, calls, s.jobs[i].key);
  }

  lemma DbKeyIsInRedis(s: Stores, calls: seq<Call>, key: string)
    requires RedisFirst(calls) && (forall c :: c in calls ==> !c.SaveCheckpoint?) && key !in s.keys
    ensures key in ApplyAll(s, calls).keys ==> key in ApplyAll(s, calls).processed
  {
    DatabaseAfter(s, calls);
    EffectsAccumulate(s, calls);
    if key in ApplyAll(s, calls).keys {
      var c :| c in calls && c.RecordExecuted? && c.key == key;
      var i :| 0 <= i < |calls| && calls[i] == RecordKey(key);
      assert calls[i].RecordKey? && calls[i].key == key;
    }
  }

  lemma RedisAfterLanding(s: Stores, r: Reads, cfg: Config, j: nat, key: string)
    requires Recovers(s, r, cfg) && j < |Plan(s, r, cfg).ready|
    ensures var mid, ready := ApplyAll(s, UpToLanding(s, r, cfg, j)), Plan(s, r, cfg).ready;
      && (key in mid.processed <==>
            || key in s.processed || DuplicateKey(s.jobs, cfg, LedgersAt(s, r), key) || key in Keys(ready[..j]))
      && mid.effects == s.effects + Keys(ready[..j + 1])
  {
    CrashAfterLanding(s, r, cfg, j);
    AfterCrashPastGate(s, r, cfg, 4 * j + 1, key);
    SoFarAtLanding(s, r, cfg, j);
  }

  lemma SoFarAtLanding(s: Stores, r: Reads, cfg: Config, j: nat)
    requires Recovers(s, r, cfg) && j < |Plan(s, r, cfg).ready|
    ensures LandedJobs(s, r, cfg, 4 * j + 1) == Plan(s, r, cfg).ready[..j + 1]
    ensures RecordedJobs(s, r, cfg, 4 * j + 1) == Plan(s, r, cfg).ready[..j]
  {
    QuarterOf(j, |Plan(s, r, cfg).ready|);
  }

  /** The action that has just landed is not among the recorded ones, and has landed once more. */
  lemma LandedOnceMore(s: Stores, r: Reads, cfg: Config, j: nat)
    requires Recovers(s, r, cfg) && j < |Plan(s, r, cfg).ready|
    ensures var mid, ready := ApplyAll(s, UpToLanding(s, r, cfg, j)), Plan(s, r, cfg).ready;
      && ready[j].key !in Keys(ready[..j])
      && multiset(mid.effects)[ready[j].key] == multiset(s.effects)[ready[j].key] + 1
  {
    var ready := Plan(s, r, cfg).ready;
    RedisAfterLanding(s, r, cfg, j, ready[j].key);
    ReadyIsFreshAndDistinct(s.jobs, cfg, LedgersAt(s, r));
    KeysOfOneMore(ready, j);
    DistinctPrefix(Keys(ready), j);
    assert Keys(ready[..j]) == Keys(ready)[..j];
    CountAppended(s.effects, Keys(ready[..j + 1]), ready[j].key);
    OneMore(Keys(ready[..j]), ready[j].key, ready[j].key);
  }

  lemma DistinctPrefix(xs: seq<string>, j: nat)
    requires Distinct(xs) && j < |xs|
    ensures xs[j] !in xs[..j] && multiset(xs[..j])[xs[j]] == 0
  {
    forall i | 0 <= i < j
      ensures xs[..j][i] != xs[j]
    {
    }
    assert xs[j] in multiset(xs[..j]) <==> xs[j] in xs[..j];
  }

  /**
   * For any queue: crash right after the j-th ready action has landed, run again on the same reads (so on a confirmed
   * map that does not list it), and it lands a second time, exactly when no other copy of its key was set aside as a
   * duplicate and no call before the crash recorded the transaction hash it carries.
   */
  lemma CrashBeforeRecordingRepeatsIff(s: Stores, r: Reads, cfg: Config, j: nat)
    requires Recovers(s, r, cfg) && Distinct(Ids(s.jobs)) && j < |Plan(s, r, cfg).ready|
    ensures Possible(CrashPastGate(s, r, cfg, 4 * j + 1), cfg)
    ensures var mid, job := After(CrashPastGate(s, r, cfg, 4 * j + 1), cfg), Plan(s, r, cfg).ready[j];
      multiset(ApplyAll(mid, RunCalls(mid, r, cfg)).effects)[job.key] == multiset(s.effects)[job.key] +
        if !DuplicateKey(s.jobs, cfg, LedgersAt(s, r), job.key)
           && !HashClash(job, HashesRecordedBy(UpToLanding(s, r, cfg, j)))
        then 2 else 1
  {
    var i := ReadyComesFrom(s.jobs, cfg, LedgersAt(s, r), j);
    var mid := ApplyAll(s, UpToLanding(s, r, cfg, j));
    CrashAfterLanding(s, r, cfg, j);
    JustLanded(s, r, cfg, j, i);
    RerunRecovers(s, mid, r, cfg);
    FreshAgainIff(s, mid, r, cfg, i, HashesRecordedBy(UpToLanding(s, r, cfg, j)));
    RunEffectCount(mid, r, cfg, s.jobs[i].key);
  }
}
