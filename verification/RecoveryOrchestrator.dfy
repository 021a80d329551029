/** The recovery run itself, updating the Redis, database and chain adapters in place. */
module RecoveryOrchestrator {
  import opened Prelude
  import opened RecoveryModel

  class RedisQueue {
    var jobs: seq<Job>
    var processed: set<string>

    constructor (jobs: seq<Job>, processed: set<string>)
      ensures this.jobs == jobs && this.processed == processed
    {
      this.jobs, this.processed := jobs, processed;
    }

    method MarkJobStatus(jobId: string, status: Status, hash: string)
      modifies this`jobs
      ensures jobs == MarkFirst(old(jobs), jobId, status, hash)
      ensures |jobs| == |old(jobs)| && forall i :: 0 <= i < |jobs| ==>
        if old(jobs)[i].id == jobId && forall j :: 0 <= j < i ==> old(jobs)[j].id != jobId
        then jobs[i] == old(jobs)[i].(status := status, txHash := if hash != "" then Some(hash) else old(jobs)[i].txHash)
        else jobs[i] == old(jobs)[i]
    {
      var i := 0;
      while i < |jobs| && jobs[i].id != jobId
        invariant 0 <= i <= |jobs|
        invariant jobs == old(jobs)
        invariant forall j :: 0 <= j < i ==> jobs[j].id != jobId
      {
        i := i + 1;
      }
      MarkFirstAt(jobs, jobId, status, hash, i);
      if i < |jobs| {
        var found := jobs[i].(status := status, txHash := if hash != "" then Some(hash) else jobs[i].txHash);
        jobs := jobs[i := found];
      }
    }

    method RecordIdempotencyKey(key: string)
      modifies this`processed
      ensures processed == old(processed) + {key}
    {
      processed := processed + {key};
    }
  }

  class RecoveryDatabase {
    var checkpoint: Option<int>
    var indexed: seq<Event>
    var keys: set<string>
    var hashes: set<string>

    constructor (checkpoint: Option<int>)
      ensures this.checkpoint == checkpoint && indexed == [] && keys == {} && hashes == {}
    {
      this.checkpoint, indexed, keys, hashes := checkpoint, [], {}, {};
    }

    method SaveCheckpointLedger(ledger: int)
      modifies this`checkpoint
      ensures checkpoint == Some(ledger)
    {
      checkpoint := Some(ledger);
    }

    /** False when an event with this id is already indexed. */
    method InsertIndexedEvent(event: Event) returns (inserted: bool)
      modifies this`indexed
      ensures inserted == !IsIndexed(old(indexed), event.id)
      ensures indexed == if inserted then old(indexed) + [event] else old(indexed)
    {
      for i := 0 to |indexed|
        invariant indexed == old(indexed)
        invariant forall j :: 0 <= j < i ==> indexed[j].id != event.id
      {
        if indexed[i].id == event.id {
          return false;
        }
      }
      indexed := indexed + [event];
      return true;
    }

    method RecordExecutedTransaction(key: string, hash: string)
      modifies this`keys, this`hashes
      ensures keys == old(keys) + {key} && hashes == old(hashes) + {hash}
    {
      keys, hashes := keys + {key}, hashes + {hash};
    }
  }

  /** The chain as the worker sees it: the actions that have taken effect. */
  class Chain {
    var effects: seq<string>

    constructor ()
      ensures effects == []
    {
      effects := [];
    }

    method ExecuteFinancialAction(job: Job, hash: string) returns (txHash: string)
      modifies this
      ensures effects == old(effects) + [job.key] && txHash == hash
    {
      effects := effects + [job.key];
      txHash := hash;
    }
  }

  class ServiceRecoveryOrchestrator {
    const cfg: Config
    const redis: RedisQueue
    const db: RecoveryDatabase
    const chain: Chain

    constructor (cfg: Config, redis: RedisQueue, db: RecoveryDatabase, chain: Chain)
      ensures this.cfg == cfg && this.redis == redis && this.db == db && this.chain == chain
    {
      this.cfg, this.redis, this.db, this.chain := cfg, redis, db, chain;
    }

    function View(): Stores
      reads redis, db, chain
    {
      Stores(redis.jobs, redis.processed, db.keys, db.hashes, db.checkpoint, db.indexed, chain.effects)
    }

    /** Phase 2: index every event of the backfill window. */
    method BackfillEvents(events: seq<Event>) returns (count: int)
      modifies db`indexed
      ensures View() == ApplyAll(old(View()), InsertCalls(events))
      ensures count == |db.indexed| - |old(db.indexed)|
    {
      count := 0;
      ghost var calls := InsertCalls(events);
      for i := 0 to |events|
        invariant View() == ApplyAll(old(View()), calls[..i])
        invariant count == |db.indexed| - |old(db.indexed)|
      {
        var inserted := db.InsertIndexedEvent(events[i]);
        if inserted {
          count := count + 1;
        }
        assert calls[..i + 1][..i] == calls[..i];
      }
      assert calls[..|events|] == calls;
    }

    /** Phase 3: deduplicate the queue; `d` collects the lists the loop fills. */
    method DeduplicateQueue(k: Ledgers) returns (d: Dedup)
      modifies redis, db`keys, db`hashes
      ensures d == DedupAll(old(redis.jobs), cfg, k)
      ensures View() == ApplyAll(old(View()), d.calls)
    {
      d := NOTHING_SEEN;
      var pending := redis.jobs;
      for i := 0 to |pending|
        invariant d == DedupAll(pending[..i], cfg, k)
        invariant View() == ApplyAll(old(View()), d.calls)
      {
        assert pending[..i + 1][..i] == pending[..i];
        d := InspectJob(d, pending[i], k, old(View()));
      }
      assert pending[..|pending|] == pending;
    }

    /** One turn of the loop. */
    method InspectJob(before: Dedup, job: Job, k: Ledgers, ghost start: Stores) returns (d: Dedup)
      requires View() == ApplyAll(start, before.calls)
      modifies redis, db`keys, db`hashes
      ensures d == DedupJob(before, job, cfg, k)
      ensures View() == ApplyAll(start, d.calls)
    {
      var gap := ValidateQueuedTransaction(job, cfg);
      if gap.Some? {
        d := BlockJob(before, job, gap.value, start);
      } else if AlreadyDone(k, job) || job.key in before.seen {
        MarkDuplicate(k, job);
        d := before.(dups := before.dups + [job.id], calls := before.calls + DuplicateCalls(k, job));
        ApplyConcat(start, before.calls, DuplicateCalls(k, job));
      } else if job.status == InFlight {
        d := BlockJob(before, job, Gap(AmbiguousInflight, High, Some(job.id)), start);
      } else {
        d := before.(ready := before.ready + [job], seen := before.seen + {job.key});
      }
    }

    method BlockJob(before: Dedup, job: Job, gap: Gap, ghost start: Stores) returns (d: Dedup)
      requires View() == ApplyAll(start, before.calls)
      modifies redis`jobs
      ensures d == before.(gaps := before.gaps + [gap], blocked := before.blocked + [job.id],
                           calls := before.calls + [MarkStatus(job.id, Blocked, "")])
      ensures View() == ApplyAll(start, d.calls)
    {
      redis.MarkJobStatus(job.id, Blocked, "");
      d := before.(gaps := before.gaps + [gap], blocked := before.blocked + [job.id],
                   calls := before.calls + [MarkStatus(job.id, Blocked, "")]);
      ApplyOne(start, before.calls, MarkStatus(job.id, Blocked, ""));
    }

    method MarkDuplicate(k: Ledgers, job: Job)
      modifies redis, db`keys, db`hashes
      ensures View() == ApplyAll(old(View()), DuplicateCalls(k, job))
    {
      redis.MarkJobStatus(job.id, SkippedDuplicate, CanonicalHash(k, job));
      redis.RecordIdempotencyKey(job.key);
      ghost var first := [MarkStatus(job.id, SkippedDuplicate, CanonicalHash(k, job))];
      ApplyOne(old(View()), [], first[0]);
      assert [] + first == first;
      ApplyOne(old(View()), first, RecordKey(job.key));
      if ConfirmedOnChain(k, job.key) && !RecordedInDb(k, job) {
        db.RecordExecutedTransaction(job.key, k.confirmed[job.key]);
        ApplyOne(old(View()), first + [RecordKey(job.key)], RecordExecuted(job.key, k.confirmed[job.key]));
      }
      assert first + [RecordKey(job.key)]
          == [MarkStatus(job.id, SkippedDuplicate, CanonicalHash(k, job)), RecordKey(job.key)];
    }

    /** Phase 5, gate closed. */
    method BlockReady(ready: seq<Job>)
      modifies redis`jobs
      ensures View() == ApplyAll(old(View()), BlockCalls(ready))
    {
      ghost var start := View();
      for i := 0 to |ready|
        invariant View() == ApplyAll(start, BlockCalls(ready[..i]))
      {
        BlockCallsSnoc(ready, i);
        ApplyOne(start, BlockCalls(ready[..i]), MarkStatus(ready[i].id, Blocked, ""));
        redis.MarkJobStatus(ready[i].id, Blocked, "");
      }
      assert ready[..|ready|] == ready;
    }

    /** Phase 5, gate open. */
    method ExecuteReady(ready: seq<Job>, hashFor: Job -> string) returns (executed: seq<Executed>)
      modifies redis, db`keys, db`hashes, chain
      ensures View() == ApplyAll(old(View()), ExecuteCalls(ready, hashFor))
      ensures executed == ExecutedActions(ready, hashFor)
    {
      executed := [];
      for i := 0 to |ready|
        invariant View() == ApplyAll(old(View()), ExecuteCalls(ready[..i], hashFor))
        invariant |executed| == i
        invariant forall j :: 0 <= j < i ==>
          executed[j] == Executed(ready[j].id, ready[j].key, hashFor(ready[j]), ready[j].amount)
      {
        var job := ready[i];
        var txHash := ExecuteOne(job, hashFor(job));
        executed := executed + [Executed(job.id, job.key, txHash, job.amount)];
        ExecuteOneMore(old(View()), ready, hashFor, i);
      }
      assert ready[..|ready|] == ready;
    }

    method ExecuteOne(job: Job, hash: string) returns (txHash: string)
      modifies redis, db`keys, db`hashes, chain
      ensures View() == ApplyAll(old(View()), ExecuteJobCalls(job, hash))
      ensures txHash == hash
    {
      txHash := chain.ExecuteFinancialAction(job, hash);
      redis.RecordIdempotencyKey(job.key);
      redis.MarkJobStatus(job.id, Confirmed, txHash);
      db.RecordExecutedTransaction(job.key, txHash);
      ApplyFour(old(View()), Execute(job), RecordKey(job.key),
                MarkStatus(job.id, Confirmed, hash), RecordExecuted(job.key, hash));
    }

    /** Phases 1 and 2: compare networks, restore the checkpoint, backfill. */
    method RestoreAndBackfill(r: Reads) returns (prev: int, gaps: seq<Gap>, backfilled: int)
      modifies db`indexed
      ensures prev == PreviousLedger(old(View()), r)
      ensures db.checkpoint.Some? ==> prev == db.checkpoint.value
      ensures db.checkpoint.None? && r.restored.Some? ==> prev == r.restored.value
      ensures db.checkpoint.None? && r.restored.None? ==>
        prev == 0 && Gap(MissingLedgerEvents, Critical, None) in gaps && db.indexed == old(db.indexed)
      ensures gaps == NetworkGaps(r, cfg) + RegressionGaps(prev, r) + BackfillGaps(prev, r)
      ensures View() == ApplyAll(old(View()), BackfillCalls(prev, r))
      ensures backfilled == |db.indexed| - |old(db.indexed)|
    {
      gaps := [];
      if r.network != cfg.network {
        gaps := gaps + [Gap(NetworkMismatch, Critical, None)];
      }
      prev := if db.checkpoint.Some? then db.checkpoint.value
              else if r.restored.Some? then r.restored.value else 0;
      if prev > r.latest {
        gaps := gaps + [Gap(CheckpointRegression, Critical, None)];
      }
      backfilled := 0;
      if prev > 0 && r.latest >= prev {
        if |r.missing| > 0 {
          gaps := gaps + [Gap(MissingLedgerEvents, Critical, None)];
        }
        backfilled := BackfillEvents(r.events);
      } else if prev == 0 {
        gaps := gaps + [Gap(MissingLedgerEvents, Critical, None)];
      }
    }

    method RunRecovery(r: Reads) returns (report: Report)
      modifies redis, db, chain
      ensures View() == ApplyAll(old(View()), RunCalls(old(View()), r, cfg))
      ensures report == RunReport(old(View()), r, cfg)
    {
      ghost var start := View();
      var prev, gaps, backfilled := RestoreAndBackfill(r);
      BackfillKeepsPlan(start, r, cfg);
      var inspected := |redis.jobs|;
      var d, jobGaps := InspectQueue(r);
      gaps := gaps + jobGaps;
      assert gaps == AllGaps(start, r, cfg);
      RunInPhases(start, r, cfg);
      var executed, blocked, reconciled := PassGate(gaps, d, prev, r);
      report := Report(|gaps| == 0, prev, r.latest, reconciled, backfilled, inspected, d.dups, executed, blocked,
                       r.chainAssets - r.dbAssets, r.chainShares - r.dbShares, gaps);
      ReportInPhases(start, r, cfg, report);
    }

    /** Phases 3 and 4: deduplicate the queue, compare the accounting totals. */
    method InspectQueue(r: Reads) returns (d: Dedup, gaps: seq<Gap>)
      modifies redis, db`keys, db`hashes
      ensures d == Plan(old(View()), r, cfg)
      ensures View() == ApplyAll(old(View()), d.calls)
      ensures gaps == d.gaps + AccountingGaps(r)
    {
      d := DeduplicateQueue(Ledgers(redis.processed, db.keys, db.hashes, r.confirmed));
      gaps := d.gaps;
      if r.chainAssets - r.dbAssets != 0 || r.chainShares - r.dbShares != 0 {
        gaps := gaps + [Gap(AccountingMismatch, Critical, None)];
      }
    }

    /** Phase 5: block every ready job, or execute them all and advance the checkpoint. */
    method PassGate(gaps: seq<Gap>, d: Dedup, prev: int, r: Reads)
      returns (executed: seq<Executed>, blocked: seq<string>, reconciled: int)
      modifies redis, db, chain
      ensures gaps != [] ==>
        && View() == ApplyAll(old(View()), BlockCalls(d.ready))
        && executed == [] && blocked == d.blocked + Ids(d.ready) && reconciled == prev
      ensures gaps == [] ==>
        && View() == ApplyAll(old(View()), ExecuteCalls(d.ready, r.hashFor) + [SaveCheckpoint(r.latest)])
        && executed == ExecutedActions(d.ready, r.hashFor) && blocked == d.blocked && reconciled == r.latest
    {
      ghost var start := View();
      if |gaps| > 0 {
        BlockReady(d.ready);
        return [], d.blocked + Ids(d.ready), prev;
      }
      executed := ExecuteReady(d.ready, r.hashFor);
      db.SaveCheckpointLedger(r.latest);
      ApplyOne(start, ExecuteCalls(d.ready, r.hashFor), SaveCheckpoint(r.latest));
      blocked, reconciled := d.blocked, r.latest;
    }
  }

  // ---------------------------------------------------------------- call lists

  lemma ApplyOne(s: Stores, calls: seq<Call>, call: Call)
    ensures ApplyAll(s, calls + [call]) == Apply(ApplyAll(s, calls), call)
  {
    assert (calls + [call])[..|calls|] == calls;
  }

  lemma {:induction false} ApplyConcat(s: Stores, a: seq<Call>, b: seq<Call>)
    ensures ApplyAll(s, a + b) == ApplyAll(ApplyAll(s, a), b)
    decreases |b|
  {
    if b == [] {
      assert a + b == a;
    } else {
      var init, last := b[..|b| - 1], b[|b| - 1];
      ApplyConcat(s, a, init);
      assert a + b == (a + init) + [last];
      ApplyOne(s, a + init, last);
    }
  }

  lemma ExecuteOneMore(s: Stores, ready: seq<Job>, hashFor: Job -> string, i: nat)
    requires i < |ready|
    ensures ApplyAll(s, ExecuteCalls(ready[..i + 1], hashFor))
         == ApplyAll(ApplyAll(s, ExecuteCalls(ready[..i], hashFor)), ExecuteJobCalls(ready[i], hashFor(ready[i])))
  {
    assert ready[..i + 1][..i] == ready[..i];
    ApplyConcat(s, ExecuteCalls(ready[..i], hashFor), ExecuteJobCalls(ready[i], hashFor(ready[i])));
  }

  lemma BackfillKeepsPlan(s: Stores, r: Reads, cfg: Config)
    ensures var after := ApplyAll(s, BackfillCalls(PreviousLedger(s, r), r));
      after.jobs == s.jobs && Plan(after, r, cfg) == Plan(s, r, cfg)
  {
    InsertsKeepQueue(s, r.events);
  }

  lemma RunInPhases(s: Stores, r: Reads, cfg: Config)
    ensures ApplyAll(s, RunCalls(s, r, cfg))
         == ApplyAll(ApplyAll(ApplyAll(s, BackfillCalls(PreviousLedger(s, r), r)), Plan(s, r, cfg).calls),
                     GateCalls(s, r, cfg))
  {
    var inserts, dedup := BackfillCalls(PreviousLedger(s, r), r), Plan(s, r, cfg).calls;
    ApplyConcat(s, inserts, dedup);
    ApplyConcat(s, inserts + dedup, GateCalls(s, r, cfg));
  }

  lemma ReportInPhases(s: Stores, r: Reads, cfg: Config, report: Report)
    requires var d, prev, ok := Plan(s, r, cfg), PreviousLedger(s, r), Recovers(s, r, cfg);
      && report.recovered == ok && report.previousLedger == prev && report.latestLedger == r.latest
      && report.backfilled == BackfilledCount(s, r) && report.inspected == |s.jobs| && report.dups == d.dups
      && report.gaps == AllGaps(s, r, cfg)
      && report.assetsDelta == r.chainAssets - r.dbAssets && report.sharesDelta == r.chainShares - r.dbShares
      && report.executed == (if ok then ExecutedActions(d.ready, r.hashFor) else [])
      && report.blocked == (if ok then d.blocked else d.blocked + Ids(d.ready))
      && report.reconciledLedger == (if ok then r.latest else prev)
    ensures report == RunReport(s, r, cfg)
  {
  }

  lemma ApplyFour(s: Stores, a: Call, b: Call, c: Call, d: Call)
    ensures ApplyAll(s, [a, b, c, d]) == Apply(Apply(Apply(Apply(s, a), b), c), d)
  {
    ApplyOne(s, [], a);
    ApplyOne(s, [a], b);
    ApplyOne(s, [a, b], c);
    ApplyOne(s, [a, b, c], d);
    assert [] + [a] == [a] && [a] + [b] == [a, b] && [a, b] + [c] == [a, b, c];
    assert [a, b, c] + [d] == [a, b, c, d];
  }

  /** Indexing events touches nothing else. */
  lemma {:induction false} InsertsKeepQueue(s: Stores, events: seq<Event>)
    ensures ApplyAll(s, InsertCalls(events)) == s.(indexed := ApplyAll(s, InsertCalls(events)).indexed)
  {
    if events != [] {
      var n := |events| - 1;
      InsertsKeepQueue(s, events[..n]);
      assert InsertCalls(events)[..n] == InsertCalls(events[..n]);
    }
  }

  lemma BlockCallsSnoc(ready: seq<Job>, i: nat)
    requires i < |ready|
    ensures BlockCalls(ready[..i + 1]) == BlockCalls(ready[..i]) + [MarkStatus(ready[i].id, Blocked, "")]
  {
    assert ready[..i + 1][..i] == ready[..i];
  }

  lemma {:induction false} MarkFirstAt(jobs: seq<Job>, jobId: string, status: Status, hash: string, i: nat)
    requires i <= |jobs| && forall j :: 0 <= j < i ==> jobs[j].id != jobId
    ensures i == |jobs| ==> MarkFirst(jobs, jobId, status, hash) == jobs
    ensures i < |jobs| && jobs[i].id == jobId ==>
      MarkFirst(jobs, jobId, status, hash)
      == jobs[i := jobs[i].(status := status, txHash := if hash != "" then Some(hash) else jobs[i].txHash)]
  {
    if i > 0 {
      MarkFirstAt(jobs[1..], jobId, status, hash, i - 1);
    }
  }
}
