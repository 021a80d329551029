/** What one uninterrupted run does, told on the fields of the stores and of the jobs alone. */
module RecoveryOutcomes {
  import opened Prelude
  import opened RecoveryModel
  import opened RecoveryOrchestrator
  import opened RecoveryRuns
  import opened RecoveryCrashes

  // ---------------------------------------------------------------- where a run starts

  /** With neither a stored nor a restored checkpoint a run says so, executes nothing, indexes nothing, moves nothing. */
  lemma NoCheckpointBlocks(s: Stores, r: Reads, cfg: Config)
    requires s.checkpoint.None? && r.restored.None?
    ensures var report, after := RunReport(s, r, cfg), ApplyAll(s, RunCalls(s, r, cfg));
      && Gap(MissingLedgerEvents, Critical, None) in report.gaps
      && !report.recovered && report.executed == [] && report.previousLedger == 0 && report.reconciledLedger == 0
      && after.effects == s.effects && after.indexed == s.indexed && after.checkpoint == None
  {
    var calls := RunCalls(s, r, cfg);
    RecoveredIff(s, r, cfg);
    RunEffectsAreItsCalls(s, r, cfg);
    EffectsAccumulate(s, calls);
    forall i | 0 <= i < |calls|
      ensures !calls[i].InsertEvent? && !calls[i].SaveCheckpoint?
    {
      RunCallShape(s, r, cfg, i);
    }
    OnlyInsertsIndex(s, calls);
    OnlySaveMovesCheckpoint(s, calls);
    assert Gap(MissingLedgerEvents, Critical, None) in BackfillGaps(0, r);
  }

  /** The figures of the report: a stored checkpoint counts whatever the backup holds, a restored one if none is stored. */
  lemma ReportFigures(s: Stores, r: Reads, cfg: Config)
    ensures var report := RunReport(s, r, cfg);
      && (s.checkpoint.Some? ==> report.previousLedger == s.checkpoint.value)
      && (s.checkpoint.None? && r.restored.Some? ==> report.previousLedger == r.restored.value)
      && report.latestLedger == r.latest && report.inspected == |s.jobs|
      && report.reconciledLedger == (if report.gaps == [] then r.latest else report.previousLedger)
      && (report.recovered <==> report.gaps == [])
      && report.assetsDelta == r.chainAssets - r.dbAssets && report.sharesDelta == r.chainShares - r.dbShares
  {
  }

  /** A run reports, beside the gaps of its jobs, exactly these, and all of them critical. */
  lemma RunGapsIff(s: Stores, r: Reads, cfg: Config, prev: int)
    requires StartsAt(s, r, prev)
    ensures var gaps := RunReport(s, r, cfg).gaps;
      && (Gap(NetworkMismatch, Critical, None) in gaps <==> r.network != cfg.network)
      && (Gap(CheckpointRegression, Critical, None) in gaps <==> r.latest < prev)
      && (Gap(MissingLedgerEvents, Critical, None) in gaps <==> prev == 0 || (0 < prev <= r.latest && r.missing != []))
      && (Gap(AccountingMismatch, Critical, None) in gaps <==> r.chainAssets != r.dbAssets || r.chainShares != r.dbShares)
  {
    RunGapComesFrom(s, r, cfg, Gap(NetworkMismatch, Critical, None));
    RunGapComesFrom(s, r, cfg, Gap(CheckpointRegression, Critical, None));
    RunGapComesFrom(s, r, cfg, Gap(MissingLedgerEvents, Critical, None));
    RunGapComesFrom(s, r, cfg, Gap(AccountingMismatch, Critical, None));
  }

  lemma RunGapComesFrom(s: Stores, r: Reads, cfg: Config, g: Gap)
    requires g.jobId.None?
    ensures var prev := PreviousLedger(s, r);
      g in AllGaps(s, r, cfg) <==>
        g in NetworkGaps(r, cfg) || g in RegressionGaps(prev, r) || g in BackfillGaps(prev, r) || g in AccountingGaps(r)
  {
    JobGapsNameTheirJobs(s.jobs, cfg, LedgersAt(s, r));
  }

  lemma {:induction false} JobGapsNameTheirJobs(jobs: seq<Job>, cfg: Config, k: Ledgers)
    ensures forall g :: g in DedupAll(jobs, cfg, k).gaps ==> g.jobId.Some?
  {
    if jobs != [] {
      JobGapsNameTheirJobs(jobs[..|jobs| - 1], cfg, k);
    }
  }

  // ---------------------------------------------------------------- which jobs pass

  /** What the worker demands of a queued job. */
  ghost predicate Sound(job: Job, cfg: Config) {
    && job.network == cfg.network && job.contract == cfg.contract
    && job.actor != "" && job.asset == "USDC"
    && (job.action.Deposit? || job.action.Withdraw? ==> job.role.User?)
    && (job.action.Rebalance? || job.action.Harvest? ==> job.role.Agent?)
    && exists n :: IsWhole(job.amount, n) && 0 <= n <= 9007199254740991 && (n == 0 ==> job.action.Harvest?)
  }

  predicate IsWhole(amount: Number, n: int) { amount == Finite(n as real) }

  lemma JobPassesIff(job: Job, cfg: Config)
    ensures ValidateQueuedTransaction(job, cfg).None? <==> Sound(job, cfg)
    ensures WellFormed(job, cfg) <==> Sound(job, cfg)
  {
    if WellFormed(job, cfg) {
      var n := job.amount.value.Floor;
      assert IsWhole(job.amount, n);
    }
  }

  /** Redis, the database or the chain already knows the job. */
  predicate Known(s: Stores, r: Reads, job: Job) {
    || job.key in s.processed
    || job.key in s.keys
    || (job.txHash.Some? && job.txHash.value in s.hashes)
    || (job.key in r.confirmed && r.confirmed[job.key] != "")
  }

  ghost predicate Untouched(s: Stores, r: Reads, cfg: Config, i: nat)
    requires i < |s.jobs|
  {
    Sound(s.jobs[i], cfg) && !Known(s, r, s.jobs[i]) && s.jobs[i].status != InFlight
  }

  /** An earlier job of the batch carries the same key and is to be executed. */
  ghost predicate EarlierCopy(s: Stores, r: Reads, cfg: Config, i: nat)
    requires i < |s.jobs|
  {
    exists x :: 0 <= x < i && s.jobs[x].key == s.jobs[i].key && Untouched(s, r, cfg, x)
  }

  lemma FatesAgree(s: Stores, r: Reads, cfg: Config, i: nat)
    requires i < |s.jobs|
    ensures Fresh(s.jobs[i], cfg, LedgersAt(s, r)) <==> Untouched(s, r, cfg, i)
    ensures FreshKey(s.jobs[..i], cfg, LedgersAt(s, r), s.jobs[i].key) <==> EarlierCopy(s, r, cfg, i)
    ensures DuplicateAt(s.jobs, cfg, LedgersAt(s, r), i) <==>
      Sound(s.jobs[i], cfg) && (Known(s, r, s.jobs[i]) || EarlierCopy(s, r, cfg, i))
  {
    var k := LedgersAt(s, r);
    forall x | 0 <= x <= i
      ensures Fresh(s.jobs[x], cfg, k) <==> Untouched(s, r, cfg, x)
      ensures WellFormed(s.jobs[x], cfg) <==> Sound(s.jobs[x], cfg)
    {
      JobPassesIff(s.jobs[x], cfg);
    }
    if FreshKey(s.jobs[..i], cfg, k, s.jobs[i].key) {
      var x :| 0 <= x < i && s.jobs[..i][x].key == s.jobs[i].key && Fresh(s.jobs[..i][x], cfg, k);
      assert s.jobs[x].key == s.jobs[i].key && Untouched(s, r, cfg, x);
    }
    if EarlierCopy(s, r, cfg, i) {
      var x :| 0 <= x < i && s.jobs[x].key == s.jobs[i].key && Untouched(s, r, cfg, x);
      assert s.jobs[..i][x] == s.jobs[x];
    }
  }

  /** No job stands in the way: each is sound, and one in flight is known or repeats an earlier one. */
  ghost predicate Accounted(s: Stores, r: Reads, cfg: Config, i: nat)
    requires i < |s.jobs|
  {
    && Sound(s.jobs[i], cfg)
    && (s.jobs[i].status == InFlight ==> Known(s, r, s.jobs[i]) || EarlierCopy(s, r, cfg, i))
  }

  lemma QueuePassesIff(s: Stores, r: Reads, cfg: Config)
    ensures QueueUnambiguous(s.jobs, cfg, LedgersAt(s, r)) <==>
      forall i :: 0 <= i < |s.jobs| ==> Accounted(s, r, cfg, i)
  {
    var k := LedgersAt(s, r);
    forall i | 0 <= i < |s.jobs|
      ensures WellFormed(s.jobs[i], cfg) && !AmbiguousAt(s.jobs, cfg, k, i) <==> Accounted(s, r, cfg, i)
    {
      JobPassesIff(s.jobs[i], cfg);
      FatesAgree(s, r, cfg, i);
    }
    if QueueUnambiguous(s.jobs, cfg, k) {
      forall i | 0 <= i < |s.jobs|
        ensures Accounted(s, r, cfg, i)
      {
        assert WellFormed(s.jobs[i], cfg) && !AmbiguousAt(s.jobs, cfg, k, i);
      }
    }
  }

  /** The gate, on the fields alone. */
  lemma RecoversInPlainTerms(s: Stores, r: Reads, cfg: Config)
    ensures RunReport(s, r, cfg).recovered <==>
      && r.network == cfg.network
      && (s.checkpoint.Some? || r.restored.Some?)
      && (var prev := if s.checkpoint.Some? then s.checkpoint.value else r.restored.value;
          prev != 0 && prev <= r.latest && (prev > 0 ==> r.missing == []))
      && (forall i :: 0 <= i < |s.jobs| ==> Accounted(s, r, cfg, i))
      && r.chainAssets == r.dbAssets && r.chainShares == r.dbShares
  {
    RecoveredIff(s, r, cfg);
    QueuePassesIff(s, r, cfg);
  }

  // ---------------------------------------------------------------- what becomes of each job

  /** A mark on a job: the new status, and the new hash unless it is empty. */
  function Marked(job: Job, status: Status, hash: string): Job {
    job.(status := status, txHash := if hash != "" then Some(hash) else job.txHash)
  }

  function MarksOf(calls: seq<Call>, id: string): seq<Call> {
    if calls == [] then []
    else
      var last := calls[|calls| - 1];
      MarksOf(calls[..|calls| - 1], id) + if last.MarkStatus? && last.jobId == id then [last] else []
  }

  function MarkAll(job: Job, marks: seq<Call>): Job {
    if marks == [] then job
    else
      var before, last := MarkAll(job, marks[..|marks| - 1]), marks[|marks| - 1];
      if last.MarkStatus? then Marked(before, last.status, last.hash) else before
  }

  lemma MarksOfLast(calls: seq<Call>, call: Call, id: string)
    ensures MarksOf(calls + [call], id)
         == MarksOf(calls, id) + if call.MarkStatus? && call.jobId == id then [call] else []
  {
    assert (calls + [call])[..|calls|] == calls;
  }

  lemma {:induction false} MarksOfConcat(a: seq<Call>, b: seq<Call>, id: string)
    ensures MarksOf(a + b, id) == MarksOf(a, id) + MarksOf(b, id)
    decreases |b|
  {
    if b == [] {
      assert a + b == a;
    } else {
      var n := |b| - 1;
      MarksOfConcat(a, b[..n], id);
      assert (a + b)[..|a + b| - 1] == a + b[..n];
    }
  }

  lemma {:induction false} NoMarks(calls: seq<Call>, id: string)
    requires forall c :: c in calls && c.MarkStatus? ==> c.jobId != id
    ensures MarksOf(calls, id) == []
  {
    if calls != [] {
      NoMarks(calls[..|calls| - 1], id);
    }
  }

  lemma {:induction false} MarkFirstHits(jobs: seq<Job>, id: string, status: Status, hash: string, i: nat)
    requires Distinct(Ids(jobs)) && i < |jobs|
    ensures |MarkFirst(jobs, id, status, hash)| == |jobs|
    ensures MarkFirst(jobs, id, status, hash)[i] == if jobs[i].id == id then Marked(jobs[i], status, hash) else jobs[i]
    decreases |jobs|
  {
    MarkFirstKeepsLength(jobs, id, status, hash);
    if i > 0 {
      assert Ids(jobs)[0] != Ids(jobs)[i];
      TailIdsDistinct(jobs);
      MarkFirstHits(jobs[1..], id, status, hash, i - 1);
    }
  }

  lemma TailIdsDistinct(jobs: seq<Job>)
    requires Distinct(Ids(jobs)) && jobs != []
    ensures Distinct(Ids(jobs[1..]))
  {
    assert Ids(jobs[1..]) == Ids(jobs)[1..];
  }

  lemma {:induction false} MarkFirstKeepsLength(jobs: seq<Job>, id: string, status: Status, hash: string)
    ensures Ids(MarkFirst(jobs, id, status, hash)) == Ids(jobs)
  {
    if jobs != [] && jobs[0].id != id {
      var rest := MarkFirst(jobs[1..], id, status, hash);
      MarkFirstKeepsLength(jobs[1..], id, status, hash);
      IdsOfFirst(jobs[0], jobs[1..]);
      IdsOfFirst(jobs[0], rest);
      assert jobs == [jobs[0]] + jobs[1..];
    }
  }

  lemma IdsOfFirst(job: Job, rest: seq<Job>)
    ensures Ids([job] + rest) == [job.id] + Ids(rest)
  {
  }

  lemma OneCallOnJob(s: Stores, call: Call, i: nat)
    requires Distinct(Ids(s.jobs)) && i < |s.jobs|
    ensures Ids(Apply(s, call).jobs) == Ids(s.jobs) && |Apply(s, call).jobs| == |s.jobs|
    ensures Apply(s, call).jobs[i] == if call.MarkStatus? && call.jobId == s.jobs[i].id
      then Marked(s.jobs[i], call.status, call.hash) else s.jobs[i]
  {
    if call.MarkStatus? {
      MarkFirstHits(s.jobs, call.jobId, call.status, call.hash, i);
      MarkFirstKeepsLength(s.jobs, call.jobId, call.status, call.hash);
    }
  }

  /** With distinct ids, a job is left as its own marks leave it. */
  lemma {:induction false} JobAfterCalls(s: Stores, calls: seq<Call>, i: nat)
    requires Distinct(Ids(s.jobs)) && i < |s.jobs|
    ensures Ids(ApplyAll(s, calls).jobs) == Ids(s.jobs) && |ApplyAll(s, calls).jobs| == |s.jobs|
    ensures ApplyAll(s, calls).jobs[i] == MarkAll(s.jobs[i], MarksOf(calls, s.jobs[i].id))
  {
    if calls != [] {
      var front, last, id := calls[..|calls| - 1], calls[|calls| - 1], s.jobs[i].id;
      JobAfterCalls(s, front, i);
      assert Ids(ApplyAll(s, front).jobs)[i] == Ids(s.jobs)[i];
      OneCallOnJob(ApplyAll(s, front), last, i);
      MarksByLast(s.jobs[i], calls, id);
    }
  }

  lemma MarksByLast(job: Job, calls: seq<Call>, id: string)
    requires calls != []
    ensures var before, last := MarkAll(job, MarksOf(calls[..|calls| - 1], id)), calls[|calls| - 1];
      MarkAll(job, MarksOf(calls, id))
      == if last.MarkStatus? && last.jobId == id then Marked(before, last.status, last.hash) else before
  {
    var marks, last := MarksOf(calls[..|calls| - 1], id), calls[|calls| - 1];
    if last.MarkStatus? && last.jobId == id {
      OneMoreMark(job, marks, last);
    } else {
      assert marks + [] == marks;
    }
  }

  lemma OneMoreMark(job: Job, marks: seq<Call>, mark: Call)
    requires mark.MarkStatus?
    ensures MarkAll(job, marks + [mark]) == Marked(MarkAll(job, marks), mark.status, mark.hash)
  {
    assert (marks + [mark])[..|marks|] == marks;
  }

  /** The hash a duplicate is marked with. */
  function KnownHash(r: Reads, job: Job): string {
    if job.key in r.confirmed then r.confirmed[job.key]
    else if job.txHash.Some? then job.txHash.value
    else "confirmed_prior_to_recovery"
  }

  /** The mark the deduplication puts on the i-th job, if any. */
  ghost function DedupMark(s: Stores, r: Reads, cfg: Config, i: nat): seq<Call>
    requires i < |s.jobs|
  {
    var job := s.jobs[i];
    if !Sound(job, cfg) then [MarkStatus(job.id, Blocked, "")]
    else if Known(s, r, job) || EarlierCopy(s, r, cfg, i) then [MarkStatus(job.id, SkippedDuplicate, KnownHash(r, job))]
    else if job.status == InFlight then [MarkStatus(job.id, Blocked, "")]
    else []
  }

  lemma {:induction false} DedupMarks(s: Stores, r: Reads, cfg: Config, n: nat, i: nat)
    requires Distinct(Ids(s.jobs)) && i < |s.jobs| && n <= |s.jobs|
    ensures MarksOf(DedupAll(s.jobs[..n], cfg, LedgersAt(s, r)).calls, s.jobs[i].id)
         == if i < n then DedupMark(s, r, cfg, i) else []
    decreases n
  {
    if n > 0 {
      var k, front, job := LedgersAt(s, r), s.jobs[..n - 1], s.jobs[n - 1];
      DedupMarks(s, r, cfg, n - 1, i);
      assert s.jobs[..n][..n - 1] == front;
      var before := DedupAll(front, cfg, k);
      OneJobMarks(s, r, cfg, n - 1, before);
      MarksOfOneJob(before, job, cfg, k, s.jobs[i].id);
      assert i != n - 1 ==> Ids(s.jobs)[i] != Ids(s.jobs)[n - 1];
    }
  }

  lemma MarksOfDuplicate(k: Ledgers, job: Job, id: string)
    ensures MarksOf(DuplicateCalls(k, job), id)
         == if id == job.id then [MarkStatus(id, SkippedDuplicate, CanonicalHash(k, job))] else []
  {
    var calls := DuplicateCalls(k, job);
    var mark, rest := calls[0], calls[1..];
    assert calls == [mark] + rest;
    MarksOfConcat([mark], rest, id);
    NoMarks(rest, id);
    MarksOfLast([], mark, id);
    assert [] + [mark] == [mark];
  }

  /** What one turn of the loop appends. */
  function TurnCalls(d: Dedup, job: Job, cfg: Config, k: Ledgers): seq<Call> {
    if !WellFormed(job, cfg) then [MarkStatus(job.id, Blocked, "")]
    else if AlreadyDone(k, job) || job.key in d.seen then DuplicateCalls(k, job)
    else if job.status == InFlight then [MarkStatus(job.id, Blocked, "")]
    else []
  }

  lemma TurnAppends(d: Dedup, job: Job, cfg: Config, k: Ledgers)
    ensures DedupJob(d, job, cfg, k).calls == d.calls + TurnCalls(d, job, cfg, k)
  {
  }

  lemma MarksOfTurn(d: Dedup, job: Job, cfg: Config, k: Ledgers, id: string)
    ensures MarksOf(TurnCalls(d, job, cfg, k), id) == if id == job.id then JobMarks(d, job, cfg, k) else []
  {
    MarksOfDuplicate(k, job, id);
    MarksOfLast([], MarkStatus(job.id, Blocked, ""), id);
    assert [] + [MarkStatus(job.id, Blocked, "")] == [MarkStatus(job.id, Blocked, "")];
  }

  /** What one turn of the loop appends marks its own job only. */
  lemma MarksOfOneJob(d: Dedup, job: Job, cfg: Config, k: Ledgers, id: string)
    ensures MarksOf(DedupJob(d, job, cfg, k).calls, id)
         == MarksOf(d.calls, id) + if id == job.id then JobMarks(d, job, cfg, k) else []
  {
    TurnAppends(d, job, cfg, k);
    MarksOfConcat(d.calls, TurnCalls(d, job, cfg, k), id);
    MarksOfTurn(d, job, cfg, k, id);
  }

  function JobMarks(d: Dedup, job: Job, cfg: Config, k: Ledgers): seq<Call> {
    if !WellFormed(job, cfg) then [MarkStatus(job.id, Blocked, "")]
    else if AlreadyDone(k, job) || job.key in d.seen then [MarkStatus(job.id, SkippedDuplicate, CanonicalHash(k, job))]
    else if job.status == InFlight then [MarkStatus(job.id, Blocked, "")]
    else []
  }

  lemma OneJobMarks(s: Stores, r: Reads, cfg: Config, i: nat, before: Dedup)
    requires i < |s.jobs| && before == DedupAll(s.jobs[..i], cfg, LedgersAt(s, r))
    ensures JobMarks(before, s.jobs[i], cfg, LedgersAt(s, r)) == DedupMark(s, r, cfg, i)
  {
    JobPassesIff(s.jobs[i], cfg);
    FatesAgree(s, r, cfg, i);
    SeenAreFreshKeys(s.jobs[..i], cfg, LedgersAt(s, r), s.jobs[i].key);
  }

  // ---------------------------------------------------------------- ... and past the gate

  lemma MarksOfExecuteJob(job: Job, hash: string, id: string)
    ensures MarksOf(ExecuteJobCalls(job, hash), id) == if id == job.id then [MarkStatus(id, Confirmed, hash)] else []
  {
    var calls := ExecuteJobCalls(job, hash);
    NoMarks(calls[..2], id);
    MarksOfLast(calls[..2], calls[2], id);
    MarksOfLast(calls[..3], calls[3], id);
    assert calls[..3] == calls[..2] + [calls[2]] && calls == calls[..3] + [calls[3]];
  }

  lemma MarksOfLoopByLast(ready: seq<Job>, hashFor: Job -> string, id: string)
    requires ready != []
    ensures var n := |ready| - 1;
      MarksOf(ExecuteCalls(ready, hashFor), id) == MarksOf(ExecuteCalls(ready[..n], hashFor), id)
        + if id == ready[n].id then [MarkStatus(id, Confirmed, hashFor(ready[n]))] else []
  {
    var n := |ready| - 1;
    MarksOfConcat(ExecuteCalls(ready[..n], hashFor), ExecuteJobCalls(ready[n], hashFor(ready[n])), id);
    MarksOfExecuteJob(ready[n], hashFor(ready[n]), id);
  }

  lemma {:induction false} LoopMarksNone(ready: seq<Job>, hashFor: Job -> string, id: string)
    requires forall j :: 0 <= j < |ready| ==> ready[j].id != id
    ensures MarksOf(ExecuteCalls(ready, hashFor), id) == []
  {
    if ready != [] {
      MarksOfLoopByLast(ready, hashFor, id);
      LoopMarksNone(ready[..|ready| - 1], hashFor, id);
    }
  }

  lemma {:induction false} LoopMarksOne(ready: seq<Job>, hashFor: Job -> string, j: nat)
    requires Distinct(Ids(ready)) && j < |ready|
    ensures MarksOf(ExecuteCalls(ready, hashFor), ready[j].id) == [MarkStatus(ready[j].id, Confirmed, hashFor(ready[j]))]
    decreases |ready|
  {
    var n := |ready| - 1;
    MarksOfLoopByLast(ready, hashFor, ready[j].id);
    IdsBeforeLast(ready);
    if j == n {
      forall q | 0 <= q < n
        ensures ready[..n][q].id != ready[n].id
      {
        assert Ids(ready)[q] != Ids(ready)[n];
      }
      LoopMarksNone(ready[..n], hashFor, ready[n].id);
    } else {
      assert Ids(ready)[j] != Ids(ready)[n];
      LoopMarksOne(ready[..n], hashFor, j);
    }
  }

  lemma IdsBeforeLast(ready: seq<Job>)
    requires ready != [] && Distinct(Ids(ready))
    ensures var n := |ready| - 1; Distinct(Ids(ready[..n])) && ready[n].id !in Ids(ready[..n])
  {
    var n := |ready| - 1;
    IdsOfLast(ready);
    forall j | 0 <= j < n
      ensures Ids(ready[..n])[j] == Ids(ready)[j] != Ids(ready)[n]
    {
    }
  }

  lemma {:induction false} BlockMarksOf(ready: seq<Job>, id: string)
    requires Distinct(Ids(ready))
    ensures MarksOf(BlockCalls(ready), id) == if id in Ids(ready) then [MarkStatus(id, Blocked, "")] else []
  {
    if ready != [] {
      var n := |ready| - 1;
      IdsOfLast(ready);
      IdsBeforeLast(ready);
      BlockMarksOf(ready[..n], id);
      MarksOfLast(BlockCalls(ready[..n]), MarkStatus(ready[n].id, Blocked, ""), id);
    }
  }

  lemma {:induction false} ReadyIsListed(jobs: seq<Job>, cfg: Config, k: Ledgers, i: nat) returns (j: nat)
    requires i < |jobs| && ReadyAt(jobs, cfg, k, i)
    ensures j < |DedupAll(jobs, cfg, k).ready| && DedupAll(jobs, cfg, k).ready[j] == jobs[i]
    decreases |jobs|
  {
    var n := |jobs| - 1;
    SeenAreFreshKeys(jobs[..n], cfg, k, jobs[n].key);
    if i == n {
      j := |DedupAll(jobs[..n], cfg, k).ready|;
    } else {
      assert jobs[..n][..i] == jobs[..i];
      j := ReadyIsListed(jobs[..n], cfg, k, i);
    }
  }

  lemma ReadyIdsAreDistinct(jobs: seq<Job>, cfg: Config, k: Ledgers)
    requires Distinct(Ids(jobs))
    ensures Distinct(Ids(DedupAll(jobs, cfg, k).ready))
  {
    var ready := DedupAll(jobs, cfg, k).ready;
    forall p, q | 0 <= p < q < |ready|
      ensures Ids(ready)[p] != Ids(ready)[q]
    {
      var i := ReadyComesFrom(jobs, cfg, k, q);
      assert Ids(ready[..q])[p] == ready[p].id;
      ReadyIdsDiffer(jobs, cfg, k, q, i, ready[p].id);
    }
  }

  lemma OthersAreNotListed(jobs: seq<Job>, cfg: Config, k: Ledgers, i: nat)
    requires Distinct(Ids(jobs)) && i < |jobs| && !ReadyAt(jobs, cfg, k, i)
    ensures jobs[i].id !in Ids(DedupAll(jobs, cfg, k).ready)
  {
    var ready := DedupAll(jobs, cfg, k).ready;
    forall j | 0 <= j < |ready|
      ensures Ids(ready)[j] != jobs[i].id
    {
      var x := ReadyComesFrom(jobs, cfg, k, j);
      assert Ids(jobs)[x] != Ids(jobs)[i];
    }
  }

  /** The mark put on the i-th job past the gate, if any. */
  ghost function GateMark(s: Stores, r: Reads, cfg: Config, i: nat): seq<Call>
    requires i < |s.jobs|
  {
    var job := s.jobs[i];
    if !Untouched(s, r, cfg, i) || EarlierCopy(s, r, cfg, i) then []
    else if RunReport(s, r, cfg).recovered then [MarkStatus(job.id, Confirmed, r.hashFor(job))]
    else [MarkStatus(job.id, Blocked, "")]
  }

  lemma MarksOfLoopAndSave(ready: seq<Job>, hashFor: Job -> string, latest: int, id: string)
    ensures MarksOf(ExecuteCalls(ready, hashFor) + [SaveCheckpoint(latest)], id) == MarksOf(ExecuteCalls(ready, hashFor), id)
  {
    MarksOfLast(ExecuteCalls(ready, hashFor), SaveCheckpoint(latest), id);
  }

  /** Whether the i-th job is listed as ready. */
  lemma ListedIff(s: Stores, r: Reads, cfg: Config, i: nat) returns (j: nat)
    requires Distinct(Ids(s.jobs)) && i < |s.jobs|
    ensures var ready := Plan(s, r, cfg).ready;
      && Distinct(Ids(ready))
      && if Untouched(s, r, cfg, i) && !EarlierCopy(s, r, cfg, i) then j < |ready| && ready[j] == s.jobs[i]
         else forall q :: 0 <= q < |ready| ==> ready[q].id != s.jobs[i].id
  {
    var k, ready := LedgersAt(s, r), Plan(s, r, cfg).ready;
    j := 0;
    FatesAgree(s, r, cfg, i);
    ReadyIdsAreDistinct(s.jobs, cfg, k);
    if ReadyAt(s.jobs, cfg, k, i) {
      j := ReadyIsListed(s.jobs, cfg, k, i);
    } else {
      OthersAreNotListed(s.jobs, cfg, k, i);
      assert forall q :: 0 <= q < |ready| ==> ready[q].id == Ids(ready)[q];
    }
  }

  lemma GateMarks(s: Stores, r: Reads, cfg: Config, i: nat)
    requires Distinct(Ids(s.jobs)) && i < |s.jobs|
    ensures MarksOf(GateCalls(s, r, cfg), s.jobs[i].id) == GateMark(s, r, cfg, i)
  {
    var ready, id := Plan(s, r, cfg).ready, s.jobs[i].id;
    var j := ListedIff(s, r, cfg, i);
    var listed := Untouched(s, r, cfg, i) && !EarlierCopy(s, r, cfg, i);
    if Recovers(s, r, cfg) {
      MarksOfLoopAndSave(ready, r.hashFor, r.latest, id);
      if listed {
        LoopMarksOne(ready, r.hashFor, j);
      } else {
        LoopMarksNone(ready, r.hashFor, id);
      }
    } else {
      BlockMarksOf(ready, id);
      assert listed ==> Ids(ready)[j] == id;
    }
  }

  lemma RunMarks(s: Stores, r: Reads, cfg: Config, i: nat)
    requires Distinct(Ids(s.jobs)) && i < |s.jobs|
    ensures MarksOf(RunCalls(s, r, cfg), s.jobs[i].id) == DedupMark(s, r, cfg, i) + GateMark(s, r, cfg, i)
  {
    var inserts, dedup, id := BackfillCalls(PreviousLedger(s, r), r), Plan(s, r, cfg).calls, s.jobs[i].id;
    NoMarks(inserts, id);
    assert s.jobs[..|s.jobs|] == s.jobs;
    DedupMarks(s, r, cfg, |s.jobs|, i);
    GateMarks(s, r, cfg, i);
    MarksOfConcat(inserts, dedup, id);
    MarksOfConcat(inserts + dedup, GateCalls(s, r, cfg), id);
    assert [] + DedupMark(s, r, cfg, i) == DedupMark(s, r, cfg, i);
  }

  /**
   * What one uninterrupted run makes of each job, on the fields alone: unsound jobs are blocked; jobs known to Redis,
   * the database or the chain, and repetitions of a job of the batch, are set aside with the hash that is known;
   * unaccounted jobs in flight lose that status and are blocked; the others are confirmed if the run recovers, and
   * blocked if it does not.
   */
  lemma JobAfterRun(s: Stores, r: Reads, cfg: Config, i: nat)
    requires Distinct(Ids(s.jobs)) && i < |s.jobs|
    ensures |ApplyAll(s, RunCalls(s, r, cfg)).jobs| == |s.jobs|
    ensures var job, after := s.jobs[i], ApplyAll(s, RunCalls(s, r, cfg)).jobs[i];
      if !Sound(job, cfg) then after == job.(status := Blocked)
      else if Known(s, r, job) || EarlierCopy(s, r, cfg, i) then
        after == Marked(job, SkippedDuplicate, KnownHash(r, job))
      else if job.status != InFlight && RunReport(s, r, cfg).recovered then
        after == Marked(job, Confirmed, r.hashFor(job))
      else after == job.(status := Blocked)
  {
    JobAfterCalls(s, RunCalls(s, r, cfg), i);
    RunMarks(s, r, cfg, i);
    MarkAllOfOne(s.jobs[i], DedupMark(s, r, cfg, i) + GateMark(s, r, cfg, i));
  }

  lemma MarkAllOfOne(job: Job, marks: seq<Call>)
    requires |marks| <= 1
    ensures MarkAll(job, marks) ==
      if marks != [] && marks[0].MarkStatus? then Marked(job, marks[0].status, marks[0].hash) else job
  {
    if marks != [] {
      assert marks[..0] == [];
    }
  }

  // ---------------------------------------------------------------- where the report lists each job

  lemma {:induction false} DupsAreIds(jobs: seq<Job>, cfg: Config, k: Ledgers, id: string)
    ensures id in DedupAll(jobs, cfg, k).dups ==> id in Ids(jobs)
    decreases |jobs|
  {
    if jobs != [] {
      DupsAreIds(jobs[..|jobs| - 1], cfg, k, id);
      IdsOfLast(jobs);
    }
  }

  /** Whether the i-th job is listed as a duplicate. */
  lemma {:induction false} DupsIff(jobs: seq<Job>, cfg: Config, k: Ledgers, i: nat)
    requires i < |jobs| && Distinct(Ids(jobs))
    ensures jobs[i].id in DedupAll(jobs, cfg, k).dups <==> DuplicateAt(jobs, cfg, k, i)
    decreases |jobs|
  {
    var n := |jobs| - 1;
    SeenAreFreshKeys(jobs[..n], cfg, k, jobs[n].key);
    LastIdIsNew(jobs);
    if i == n {
      DupsAreIds(jobs[..n], cfg, k, jobs[n].id);
    } else {
      DupsIff(jobs[..n], cfg, k, i);
      assert jobs[..n][..i] == jobs[..i] && Ids(jobs)[i] != Ids(jobs)[n];
    }
  }

  lemma LastIdIsNew(jobs: seq<Job>)
    requires jobs != [] && Distinct(Ids(jobs))
    ensures Distinct(Ids(jobs[..|jobs| - 1])) && jobs[|jobs| - 1].id !in Ids(jobs[..|jobs| - 1])
  {
    assert Ids(jobs[..|jobs| - 1]) == Ids(jobs)[..|jobs| - 1];
  }

  lemma DistinctOnce(ids: seq<string>, i: nat)
    requires Distinct(ids) && i < |ids|
    ensures multiset(ids)[ids[i]] == 1
  {
    assert ids == ids[..i] + [ids[i]] + ids[i + 1..];
    assert ids[i] !in ids[..i] && ids[i] !in ids[i + 1..];
  }

  /** Whether the i-th job is listed as executed. */
  lemma ExecutedIff(s: Stores, r: Reads, cfg: Config, i: nat)
    requires Distinct(Ids(s.jobs)) && i < |s.jobs|
    ensures var job, done := s.jobs[i], RunReport(s, r, cfg).executed;
      var now := RunReport(s, r, cfg).recovered && Untouched(s, r, cfg, i) && !EarlierCopy(s, r, cfg, i);
      && (Executed(job.id, job.key, r.hashFor(job), job.amount) in done <==> now)
      && (job.id in ExecutedIds(done) <==> now)
  {
    var job, done, ready := s.jobs[i], RunReport(s, r, cfg).executed, Plan(s, r, cfg).ready;
    var j := ListedIff(s, r, cfg, i);
    if RunReport(s, r, cfg).recovered {
      assert forall q :: 0 <= q < |ready| ==> done[q].id == ready[q].id == ExecutedIds(done)[q];
      if Untouched(s, r, cfg, i) && !EarlierCopy(s, r, cfg, i) {
        assert done[j] == Executed(job.id, job.key, r.hashFor(job), job.amount) && ExecutedIds(done)[j] == job.id;
      }
    }
  }

  lemma ListedOnce(s: Stores, r: Reads, cfg: Config, i: nat)
    requires Distinct(Ids(s.jobs)) && i < |s.jobs|
    ensures var id, report := s.jobs[i].id, RunReport(s, r, cfg);
      id in report.blocked <==> id !in report.dups && id !in ExecutedIds(report.executed)
  {
    ReportPartitionsJobs(s, r, cfg, s.jobs[i].id);
    DistinctOnce(Ids(s.jobs), i);
  }

  /** The report lists each job once: as a duplicate, as executed with its own key, hash and amount, or as blocked. */
  lemma JobIsReportedAs(s: Stores, r: Reads, cfg: Config, i: nat)
    requires Distinct(Ids(s.jobs)) && i < |s.jobs|
    ensures var job, report := s.jobs[i], RunReport(s, r, cfg);
      var duplicate := Sound(job, cfg) && (Known(s, r, job) || EarlierCopy(s, r, cfg, i));
      && (job.id in report.dups <==> duplicate)
      && (Executed(job.id, job.key, r.hashFor(job), job.amount) in report.executed <==> report.recovered && !duplicate)
      && (job.id in report.blocked <==> !report.recovered && !duplicate)
  {
    FatesAgree(s, r, cfg, i);
    DupsIff(s.jobs, cfg, LedgersAt(s, r), i);
    ExecutedIff(s, r, cfg, i);
    ListedOnce(s, r, cfg, i);
    RecoversInPlainTerms(s, r, cfg);
    assert RunReport(s, r, cfg).recovered ==> Accounted(s, r, cfg, i);
  }

  // ---------------------------------------------------------------- what the database learns

  lemma CallInRun(s: Stores, r: Reads, cfg: Config, call: Call)
    requires call in Plan(s, r, cfg).calls || call in GateCalls(s, r, cfg)
    ensures call in RunCalls(s, r, cfg)
  {
  }

  lemma {:induction false} RecordedInDatabase(s: Stores, calls: seq<Call>, key: string, hash: string)
    requires RecordExecuted(key, hash) in calls
    ensures key in ApplyAll(s, calls).keys && hash in ApplyAll(s, calls).hashes
  {
    var n := |calls| - 1;
    if calls[n] != RecordExecuted(key, hash) {
      assert calls == calls[..n] + [calls[n]];
      RecordedInDatabase(s, calls[..n], key, hash);
    }
  }

  lemma {:induction false} DuplicateCallsAreMade(jobs: seq<Job>, cfg: Config, k: Ledgers, i: nat, c: Call)
    requires i < |jobs| && DuplicateAt(jobs, cfg, k, i) && c in DuplicateCalls(k, jobs[i])
    ensures c in DedupAll(jobs, cfg, k).calls
    decreases |jobs|
  {
    var n := |jobs| - 1;
    if i == n {
      SeenAreFreshKeys(jobs[..n], cfg, k, jobs[n].key);
    } else {
      assert jobs[..n][..i] == jobs[..i];
      DuplicateCallsAreMade(jobs[..n], cfg, k, i, c);
    }
  }

  /** A duplicate that the chain has confirmed and the database did not know is recorded there with the chain's hash. */
  lemma ConfirmedDuplicateIsRecorded(s: Stores, r: Reads, cfg: Config, i: nat)
    requires i < |s.jobs| && Sound(s.jobs[i], cfg)
    requires s.jobs[i].key in r.confirmed && r.confirmed[s.jobs[i].key] != ""
    requires s.jobs[i].key !in s.keys && (s.jobs[i].txHash.Some? ==> s.jobs[i].txHash.value !in s.hashes)
    ensures var after := ApplyAll(s, RunCalls(s, r, cfg));
      s.jobs[i].key in after.keys && r.confirmed[s.jobs[i].key] in after.hashes
  {
    var key := s.jobs[i].key;
    FatesAgree(s, r, cfg, i);
    DuplicateCallsAreMade(s.jobs, cfg, LedgersAt(s, r), i, RecordExecuted(key, r.confirmed[key]));
    CallInRun(s, r, cfg, RecordExecuted(key, r.confirmed[key]));
    RecordedInDatabase(s, RunCalls(s, r, cfg), key, r.confirmed[key]);
  }

  lemma {:induction false} LoopRecords(ready: seq<Job>, hashFor: Job -> string, j: nat)
    requires j < |ready|
    ensures RecordExecuted(ready[j].key, hashFor(ready[j])) in ExecuteCalls(ready, hashFor)
    decreases |ready|
  {
    var n := |ready| - 1;
    if j == n {
      assert ExecuteJobCalls(ready[j], hashFor(ready[j]))[3] == RecordExecuted(ready[j].key, hashFor(ready[j]));
    } else {
      LoopRecords(ready[..n], hashFor, j);
    }
  }

  /** A recovered run records every job it executes in Redis and, with its transaction hash, in the database. */
  lemma ExecutedJobIsRecorded(s: Stores, r: Reads, cfg: Config, i: nat)
    requires RunReport(s, r, cfg).recovered && i < |s.jobs|
    requires Untouched(s, r, cfg, i) && !EarlierCopy(s, r, cfg, i)
    ensures var after := ApplyAll(s, RunCalls(s, r, cfg));
      && s.jobs[i].key in after.processed && s.jobs[i].key in after.keys && r.hashFor(s.jobs[i]) in after.hashes
      && s.jobs[i].key in after.effects
  {
    var k, key, calls := LedgersAt(s, r), s.jobs[i].key, RunCalls(s, r, cfg);
    FatesAgree(s, r, cfg, i);
    var j := ReadyIsListed(s.jobs, cfg, k, i);
    LoopRecords(Plan(s, r, cfg).ready, r.hashFor, j);
    CallInRun(s, r, cfg, RecordExecuted(key, r.hashFor(s.jobs[i])));
    RecordedInDatabase(s, calls, key, r.hashFor(s.jobs[i]));
    assert FreshKey(s.jobs, cfg, k, key);
    ProcessedAfterRun(s, r, cfg, key);
    RunEffectCount(s, r, cfg, key);
    assert key in multiset(ApplyAll(s, calls).effects);
  }
}
