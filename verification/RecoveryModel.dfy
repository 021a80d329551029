/**
 * What one recovery run does, as a value: the ordered list of awaited calls that
 * write to Redis, to the database or to the chain, and the report it returns.
 * A run that crashes between two awaited calls has performed a prefix of that list.
 */
module RecoveryModel {
  import opened Prelude

  // ---------------------------------------------------------------- jobs and gaps

  /** A JavaScript number: NaN and the infinities are not finite. */
  datatype Number = Finite(value: real) | NotFinite {
    predicate IsSafeInteger() {
      && Finite?
      && value.Floor as real == value
      && -(MAX_SAFE_INTEGER as real) <= value <= MAX_SAFE_INTEGER as real
    }
  }

  datatype Action = Deposit | Withdraw | Rebalance | Harvest

  datatype Role = User | Agent | Owner

  datatype Status = Queued | InFlight | Confirmed | SkippedDuplicate | Blocked

  datatype Job = Job(
    id: string, key: string, action: Action, amount: Number, asset: string,
    network: string, contract: string, actor: string, role: Role,
    status: Status, txHash: Option<string>)

  datatype Config = Config(network: string, contract: string)

  datatype GapKind =
    | MissingLedgerEvents
    | AccountingMismatch
    | AmbiguousInflight
    | NetworkMismatch
    | AuthorizationViolation
    | CheckpointRegression

  datatype Severity = Critical | High

  datatype Gap = Gap(kind: GapKind, severity: Severity, jobId: Option<string>)

  function RequiredRole(action: Action): Role {
    match action
    case Deposit | Withdraw => User
    case Rebalance | Harvest => Agent
  }

  /** The job targets our network and contract, is authorized for its action and moves a legal amount. */
  predicate WellFormed(job: Job, cfg: Config) {
    && job.network == cfg.network
    && job.contract == cfg.contract
    && job.role == RequiredRole(job.action)
    && job.actor != ""
    && job.asset == "USDC"
    && job.amount.IsSafeInteger()
    && job.amount.value >= 0.0
    && (job.action != Harvest ==> job.amount.value > 0.0)
  }

  function ValidateQueuedTransaction(job: Job, cfg: Config): (gap: Option<Gap>)
    ensures gap.None? <==> WellFormed(job, cfg)
    ensures gap.Some? ==> gap.value.jobId == Some(job.id) && gap.value.severity == Critical
    ensures gap.Some? && gap.value.kind == NetworkMismatch
      <==> job.network != cfg.network || job.contract != cfg.contract
    ensures gap.Some? && gap.value.kind == AuthorizationViolation
      <==> job.network == cfg.network && job.contract == cfg.contract
           && (job.role != RequiredRole(job.action) || job.actor == "")
    ensures gap.Some? ==> gap.value.kind in {NetworkMismatch, AuthorizationViolation, AccountingMismatch}
  {
    if job.network != cfg.network then
      Some(Gap(NetworkMismatch, Critical, Some(job.id)))
    else if job.contract != cfg.contract then
      Some(Gap(NetworkMismatch, Critical, Some(job.id)))
    else if job.role != RequiredRole(job.action) || job.actor == "" then
      Some(Gap(AuthorizationViolation, Critical, Some(job.id)))
    else if
      || job.asset != "USDC"
      || !job.amount.IsSafeInteger()
      || job.amount.value < 0.0
      || (job.action != Harvest && job.amount.value <= 0.0)
    then
      Some(Gap(AccountingMismatch, Critical, Some(job.id)))
    else
      None
  }

  // ---------------------------------------------------------------- durable state

  datatype Event = Event(id: string, ledger: int)

  /** Everything that outlives a crash: the Redis queue, the database, and what has landed on chain. */
  datatype Stores = Stores(
    jobs: seq<Job>,              // Redis queue
    processed: set<string>,      // Redis idempotency keys
    keys: set<string>,           // database idempotency keys
    hashes: set<string>,         // database transaction hashes
    checkpoint: Option<int>,     // database event checkpoint
    indexed: seq<Event>,         // database events, in insertion order
    effects: seq<string>)        // keys whose financial action took effect on chain, in order

  /** An awaited call that writes. An absent transaction hash is the empty (falsy) string. */
  datatype Call =
    | InsertEvent(event: Event)
    | MarkStatus(jobId: string, status: Status, hash: string)
    | RecordKey(key: string)
    | RecordExecuted(key: string, hash: string)
    | Execute(job: Job)
    | SaveCheckpoint(ledger: int)

  predicate IsIndexed(events: seq<Event>, id: string) {
    exists i :: 0 <= i < |events| && events[i].id == id
  }

  /** Only the first job with this id is updated. */
  function MarkFirst(jobs: seq<Job>, jobId: string, status: Status, hash: string): seq<Job> {
    if jobs == [] then []
    else if jobs[0].id == jobId then
      var job := jobs[0];
      [job.(status := status, txHash := if hash != "" then Some(hash) else job.txHash)] + jobs[1..]
    else
      [jobs[0]] + MarkFirst(jobs[1..], jobId, status, hash)
  }

  function Apply(s: Stores, call: Call): Stores {
    match call
    case InsertEvent(e) => if IsIndexed(s.indexed, e.id) then s else s.(indexed := s.indexed + [e])
    case MarkStatus(id, status, hash) => s.(jobs := MarkFirst(s.jobs, id, status, hash))
    case RecordKey(key) => s.(processed := s.processed + {key})
    case RecordExecuted(key, hash) => s.(keys := s.keys + {key}, hashes := s.hashes + {hash})
    case Execute(job) => s.(effects := s.effects + [job.key])
    case SaveCheckpoint(ledger) => s.(checkpoint := Some(ledger))
  }

  function ApplyAll(s: Stores, calls: seq<Call>): Stores {
    if calls == [] then s
    else Apply(ApplyAll(s, calls[..|calls| - 1]), calls[|calls| - 1])
  }

  // ---------------------------------------------------------------- deduplication

  /** The snapshots against which one run deduplicates its queue. */
  datatype Ledgers = Ledgers(
    processed: set<string>, keys: set<string>, hashes: set<string>, confirmed: map<string, string>)

  predicate ConfirmedOnChain(k: Ledgers, key: string) {
    key in k.confirmed && k.confirmed[key] != ""
  }

  predicate RecordedInDb(k: Ledgers, job: Job) {
    job.key in k.keys || (job.txHash.Some? && job.txHash.value in k.hashes)
  }

  predicate AlreadyDone(k: Ledgers, job: Job) {
    job.key in k.processed || RecordedInDb(k, job) || ConfirmedOnChain(k, job.key)
  }

  function CanonicalHash(k: Ledgers, job: Job): string {
    if job.key in k.confirmed then k.confirmed[job.key]
    else if job.txHash.Some? then job.txHash.value
    else "confirmed_prior_to_recovery"
  }

  /** The lists the deduplication loop fills, and the calls it has awaited. */
  datatype Dedup = Dedup(
    calls: seq<Call>, gaps: seq<Gap>, dups: seq<string>, blocked: seq<string>,
    ready: seq<Job>, seen: set<string>)

  const NOTHING_SEEN := Dedup([], [], [], [], [], {})

  function DuplicateCalls(k: Ledgers, job: Job): seq<Call> {
    [MarkStatus(job.id, SkippedDuplicate, CanonicalHash(k, job)), RecordKey(job.key)] +
    if ConfirmedOnChain(k, job.key) && !RecordedInDb(k, job)
    then [RecordExecuted(job.key, k.confirmed[job.key])]
    else []
  }

  function DedupJob(d: Dedup, job: Job, cfg: Config, k: Ledgers): Dedup {
    var gap := ValidateQueuedTransaction(job, cfg);
    if gap.Some? then
      d.(gaps := d.gaps + [gap.value], blocked := d.blocked + [job.id],
         calls := d.calls + [MarkStatus(job.id, Blocked, "")])
    else if AlreadyDone(k, job) || job.key in d.seen then
      d.(dups := d.dups + [job.id], calls := d.calls + DuplicateCalls(k, job))
    else if job.status == InFlight then
      d.(gaps := d.gaps + [Gap(AmbiguousInflight, High, Some(job.id))], blocked := d.blocked + [job.id],
         calls := d.calls + [MarkStatus(job.id, Blocked, "")])
    else
      d.(ready := d.ready + [job], seen := d.seen + {job.key})
  }

  function DedupAll(jobs: seq<Job>, cfg: Config, k: Ledgers): Dedup {
    if jobs == [] then NOTHING_SEEN
    else DedupJob(DedupAll(jobs[..|jobs| - 1], cfg, k), jobs[|jobs| - 1], cfg, k)
  }

  // ---------------------------------------------------------------- one run

  /** What one run reads from outside the stores. `restored` is what the state backup gave, if anything. */
  datatype Reads = Reads(
    network: string, restored: Option<int>, latest: int,
    events: seq<Event>, missing: seq<int>, confirmed: map<string, string>,
    chainAssets: int, chainShares: int, dbAssets: int, dbShares: int,
    hashFor: Job -> string)

  function PreviousLedger(s: Stores, r: Reads): int {
    if s.checkpoint.Some? then s.checkpoint.value
    else if r.restored.Some? then r.restored.value
    else 0
  }

  function Backfills(prev: int, r: Reads): bool { prev > 0 && r.latest >= prev }

  function InsertCalls(events: seq<Event>): (calls: seq<Call>)
    ensures |calls| == |events|
    ensures forall i :: 0 <= i < |events| ==> calls[i] == InsertEvent(events[i])
  {
    seq(|events|, i requires 0 <= i < |events| => InsertEvent(events[i]))
  }

  function BackfillCalls(prev: int, r: Reads): seq<Call> {
    if Backfills(prev, r) then InsertCalls(r.events) else []
  }

  function NetworkGaps(r: Reads, cfg: Config): seq<Gap> {
    if r.network != cfg.network then [Gap(NetworkMismatch, Critical, None)] else []
  }

  function RegressionGaps(prev: int, r: Reads): seq<Gap> {
    if prev > r.latest then [Gap(CheckpointRegression, Critical, None)] else []
  }

  function BackfillGaps(prev: int, r: Reads): seq<Gap> {
    if Backfills(prev, r) then
      if |r.missing| > 0 then [Gap(MissingLedgerEvents, Critical, None)] else []
    else if prev == 0 then [Gap(MissingLedgerEvents, Critical, None)]
    else []
  }

  function AccountingGaps(r: Reads): seq<Gap> {
    if r.chainAssets - r.dbAssets != 0 || r.chainShares - r.dbShares != 0
    then [Gap(AccountingMismatch, Critical, None)]
    else []
  }

  function LedgersAt(s: Stores, r: Reads): Ledgers {
    Ledgers(s.processed, s.keys, s.hashes, r.confirmed)
  }

  function Plan(s: Stores, r: Reads, cfg: Config): Dedup {
    DedupAll(s.jobs, cfg, LedgersAt(s, r))
  }

  function AllGaps(s: Stores, r: Reads, cfg: Config): seq<Gap> {
    var prev := PreviousLedger(s, r);
    NetworkGaps(r, cfg) + RegressionGaps(prev, r) + BackfillGaps(prev, r)
    + Plan(s, r, cfg).gaps + AccountingGaps(r)
  }

  /** The gate at phase 5: the run goes on to execute. */
  predicate Recovers(s: Stores, r: Reads, cfg: Config) { AllGaps(s, r, cfg) == [] }

  function BlockCalls(ready: seq<Job>): seq<Call> {
    if ready == [] then []
    else BlockCalls(ready[..|ready| - 1]) + [MarkStatus(ready[|ready| - 1].id, Blocked, "")]
  }

  function ExecuteJobCalls(job: Job, hash: string): seq<Call> {
    [Execute(job), RecordKey(job.key), MarkStatus(job.id, Confirmed, hash), RecordExecuted(job.key, hash)]
  }

  function ExecuteCalls(ready: seq<Job>, hashFor: Job -> string): seq<Call> {
    if ready == [] then []
    else
      var job := ready[|ready| - 1];
      ExecuteCalls(ready[..|ready| - 1], hashFor) + ExecuteJobCalls(job, hashFor(job))
  }

  function GateCalls(s: Stores, r: Reads, cfg: Config): seq<Call> {
    if Recovers(s, r, cfg)
    then ExecuteCalls(Plan(s, r, cfg).ready, r.hashFor) + [SaveCheckpoint(r.latest)]
    else BlockCalls(Plan(s, r, cfg).ready)
  }

  /** Every writing call of one uninterrupted run, in order. */
  function RunCalls(s: Stores, r: Reads, cfg: Config): seq<Call> {
    BackfillCalls(PreviousLedger(s, r), r) + Plan(s, r, cfg).calls + GateCalls(s, r, cfg)
  }

  datatype Executed = Executed(id: string, key: string, hash: string, amount: Number)

  datatype Report = Report(
    recovered: bool, previousLedger: int, latestLedger: int, reconciledLedger: int, backfilled: int,
    inspected: nat, dups: seq<string>, executed: seq<Executed>, blocked: seq<string>,
    assetsDelta: int, sharesDelta: int, gaps: seq<Gap>)

  function Ids(jobs: seq<Job>): (ids: seq<string>)
    ensures |ids| == |jobs|
    ensures forall i :: 0 <= i < |jobs| ==> ids[i] == jobs[i].id
  {
    seq(|jobs|, i requires 0 <= i < |jobs| => jobs[i].id)
  }

  function Keys(jobs: seq<Job>): (keys: seq<string>)
    ensures |keys| == |jobs|
    ensures forall i :: 0 <= i < |jobs| ==> keys[i] == jobs[i].key
  {
    seq(|jobs|, i requires 0 <= i < |jobs| => jobs[i].key)
  }

  function ExecutedActions(ready: seq<Job>, hashFor: Job -> string): (done: seq<Executed>)
    ensures |done| == |ready|
    ensures forall i :: 0 <= i < |ready| ==>
      done[i] == Executed(ready[i].id, ready[i].key, hashFor(ready[i]), ready[i].amount)
  {
    seq(|ready|, i requires 0 <= i < |ready| => Executed(ready[i].id, ready[i].key, hashFor(ready[i]), ready[i].amount))
  }

  function BackfilledCount(s: Stores, r: Reads): int {
    |ApplyAll(s, BackfillCalls(PreviousLedger(s, r), r)).indexed| - |s.indexed|
  }

  /** The report of one uninterrupted run. */
  function RunReport(s: Stores, r: Reads, cfg: Config): Report {
    var d := Plan(s, r, cfg);
    var prev := PreviousLedger(s, r);
    var ok := Recovers(s, r, cfg);
    Report(
      ok, prev, r.latest, if ok then r.latest else prev, BackfilledCount(s, r), |s.jobs|, d.dups,
      if ok then ExecutedActions(d.ready, r.hashFor) else [],
      if ok then d.blocked else d.blocked + Ids(d.ready),
      r.chainAssets - r.dbAssets, r.chainShares - r.dbShares, AllGaps(s, r, cfg))
  }
}
