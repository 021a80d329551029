/** The rebalance scheduler: a priority queue, a circuit breaker, a history and an interval lease. */
module Scheduler {
  import opened Prelude
  import opened Leases

  datatype Interval = Hourly | FourHours | Daily

  function IntervalMs(i: Interval): int {
    match i
    case Hourly => 3_600_000
    case FourHours => 14_400_000
    case Daily => 86_400_000
  }

  datatype Trigger = Scheduled | TvlChange | UtilizationSpike | Manual

  function Priority(t: Trigger): nat {
    match t
    case UtilizationSpike => 0
    case TvlChange => 1
    case Manual => 2
    case Scheduled => 3
  }

  datatype Job = Job(id: nat, trigger: Trigger, dueAt: int)

  datatype Execution = Execution(jobId: nat, trigger: Trigger, executedAt: int, success: bool, skipped: bool)

  /** The gas price is absent when there is no provider or its lookup failed. */
  datatype Outcome = Outcome(gasPrice: Option<int>, success: bool)

  datatype Config = Config(interval: Interval, maxGasPrice: Option<int>, threshold: int, leaseTtl: int)

  /** The scheduler's fields; `running` is the job taken off the queue and not yet recorded. */
  datatype State = State(
    queue: seq<Job>, running: Option<Job>, history: seq<Execution>,
    failures: nat, tripped: bool, counter: nat, lastRunAt: Option<int>, leaseHeld: bool)

  const FRESH := State([], None, [], 0, false, 0, None, false)

  // ---------------------------------------------------------------- the queue

  /** The sort key: priority, then due time. */
  predicate Ahead(a: Job, b: Job) {
    Priority(a.trigger) < Priority(b.trigger) ||
    (Priority(a.trigger) == Priority(b.trigger) && a.dueAt < b.dueAt)
  }

  predicate Sorted(q: seq<Job>) { forall i, j :: 0 <= i < j < |q| ==> !Ahead(q[j], q[i]) }

  /** Push and stable sort of a sorted queue: the new job goes behind everything it is not strictly ahead of. */
  function Insert(q: seq<Job>, job: Job): seq<Job> {
    if q == [] || Ahead(job, q[0]) then [job] + q else [q[0]] + Insert(q[1..], job)
  }

  /** Inserting keeps the queue sorted, puts the job in, and leaves the others in their order. */
  lemma {:induction false} InsertKeepsOrder(q: seq<Job>, job: Job) returns (at: nat)
    requires Sorted(q)
    ensures Sorted(Insert(q, job)) && at <= |q|
    ensures Insert(q, job) == q[..at] + [job] + q[at..]
    ensures forall i :: 0 <= i < at ==> !Ahead(job, q[i])
    ensures forall i :: at <= i < |q| ==> Ahead(job, q[i])
  {
    if q == [] || Ahead(job, q[0]) {
      at := 0;
    } else {
      var rest := InsertKeepsOrder(q[1..], job);
      at := rest + 1;
      assert Insert(q, job) == q[..at] + [job] + q[at..];
      forall i, j | 0 <= i < j < |q| + 1
        ensures !Ahead(Insert(q, job)[j], Insert(q, job)[i])
      {
        if i == 0 {
          assert Insert(q, job)[j] == Insert(q[1..], job)[j - 1];
          assert Insert(q[1..], job) == q[1..][..rest] + [job] + q[1..][rest..];
        }
      }
    }
  }

  /** Two jobs in the order in which the queue must hold them: by trigger, then due time, then age. */
  predicate InOrder(a: Job, b: Job) {
    match b.trigger
    case UtilizationSpike => a.trigger.UtilizationSpike? && NotLater(a, b)
    case TvlChange => a.trigger.UtilizationSpike? || (a.trigger.TvlChange? && NotLater(a, b))
    case Manual => a.trigger.UtilizationSpike? || a.trigger.TvlChange? || (a.trigger.Manual? && NotLater(a, b))
    case Scheduled => !a.trigger.Scheduled? || NotLater(a, b)
  }

  predicate NotLater(a: Job, b: Job) { a.dueAt < b.dueAt || (a.dueAt == b.dueAt && a.id < b.id) }

  ghost predicate Served(q: seq<Job>) { forall i, j :: 0 <= i < j < |q| ==> InOrder(q[i], q[j]) }

  /** A job put behind all that it is not strictly ahead of, and newer than all, stands in order. */
  lemma SpliceKeepsService(q: seq<Job>, job: Job, at: nat)
    requires Served(q) && at <= |q| && forall i :: 0 <= i < |q| ==> q[i].id < job.id
    requires forall i :: 0 <= i < at ==> !Ahead(job, q[i])
    requires forall i :: at <= i < |q| ==> Ahead(job, q[i])
    ensures Served(q[..at] + [job] + q[at..])
  {
    var after := q[..at] + [job] + q[at..];
    forall i, j | 0 <= i < j < |after|
      ensures InOrder(after[i], after[j])
    {
      if i != at && j != at {
        assert InOrder(q[if i < at then i else i - 1], q[if j < at then j else j - 1]);
      }
    }
  }

  lemma InsertKeepsService(q: seq<Job>, job: Job)
    requires Sorted(q) && Served(q) && forall i :: 0 <= i < |q| ==> q[i].id < job.id
    ensures Served(Insert(q, job)) && forall i :: 0 <= i < |Insert(q, job)| ==> Insert(q, job)[i].id <= job.id
  {
    var at := InsertKeepsOrder(q, job);
    SpliceKeepsService(q, job, at);
  }

  predicate HasScheduled(q: seq<Job>) { exists i :: 0 <= i < |q| && q[i].trigger.Scheduled? }

  function Enqueue(s: State, trigger: Trigger, dueAt: int): State {
    s.(queue := Insert(s.queue, Job(s.counter + 1, trigger, dueAt)), counter := s.counter + 1)
  }

  // ---------------------------------------------------------------- running one job

  /** Scheduled jobs are skipped while gas is above the limit. */
  predicate SkipsForGas(job: Job, o: Outcome, cfg: Config) {
    job.trigger.Scheduled? && o.gasPrice.Some? && cfg.maxGasPrice.Some? && o.gasPrice.value > cfg.maxGasPrice.value
  }

  function Take(s: State): State
    requires s.queue != []
  {
    s.(queue := s.queue[1..], running := Some(s.queue[0]))
  }

  /** Record the job just taken. */
  function Complete(s: State, now: int, o: Outcome, cfg: Config): State
    requires s.running.Some?
  {
    var job := s.running.value;
    if SkipsForGas(job, o, cfg) then
      s.(running := None, history := s.history + [Execution(job.id, job.trigger, now, true, true)])
    else
      var failures := if o.success then 0 else s.failures + 1;
      s.(running := None,
         history := s.history + [Execution(job.id, job.trigger, now, o.success, false)],
         lastRunAt := Some(now),
         failures := failures,
         tripped := s.tripped || (!o.success && failures >= cfg.threshold),
         leaseHeld := if job.trigger.Scheduled? then false else s.leaseHeld)
  }

  // ---------------------------------------------------------------- a tick

  predicate HeadRuns(s: State, now: int) { s.queue != [] && s.queue[0].dueAt <= now && !s.tripped }

  /** The loop of a tick during which nothing else is enqueued. */
  function Drain(s: State, now: int, outcome: Job -> Outcome, cfg: Config): State
    decreases |s.queue|
  {
    if !HeadRuns(s, now) then s
    else Drain(Complete(Take(s), now, outcome(s.queue[0]), cfg), now, outcome, cfg)
  }

  function LeaseKey(i: Interval): string {
    match i
    case Hourly => "rebalance:lease:hourly"
    case FourHours => "rebalance:lease:4h"
    case Daily => "rebalance:lease:daily"
  }

  /** Renew if we believe we hold the lease, otherwise (or if that fails) acquire. */
  function AcquireInterval(held: bool, t: Table, me: string, now: int, clock: int, cfg: Config): Answer {
    var key, until := LeaseKey(cfg.interval), now + cfg.leaseTtl;
    if held && MemoryRenew(t, key, me, until).ok then MemoryRenew(t, key, me, until)
    else MemoryAcquire(t, key, me, until, clock)
  }

  predicate IntervalElapsed(s: State, now: int, cfg: Config) {
    s.lastRunAt.None? || now - s.lastRunAt.value >= IntervalMs(cfg.interval)
  }

  /** One replica and the shared lease table. */
  datatype Node = Node(s: State, table: Table)

  /** Emit the scheduled job if the interval elapsed and the lease is ours. `clock` is the wall clock. */
  function Emit(n: Node, me: string, now: int, clock: int, cfg: Config): Node {
    if n.s.tripped || HasScheduled(n.s.queue) || !IntervalElapsed(n.s, now, cfg) then n
    else
      var a := AcquireInterval(n.s.leaseHeld, n.table, me, now, clock, cfg);
      Node(if a.ok then Enqueue(n.s.(leaseHeld := true), Scheduled, clock) else n.s.(leaseHeld := false), a.table)
  }

  /** After a scheduled job has run, the lease it was emitted under is given back. */
  function GiveBack(before: State, after: State, t: Table, me: string, cfg: Config): Table {
    if before.leaseHeld && !after.leaseHeld then MemoryRelease(t, LeaseKey(cfg.interval), me).table else t
  }

  function Tick(n: Node, me: string, now: int, clock: int, outcome: Job -> Outcome, cfg: Config): Node {
    var emitted := Emit(n, me, now, clock, cfg);
    var drained := Drain(emitted.s, now, outcome, cfg);
    Node(drained, GiveBack(emitted.s, drained, emitted.table, me, cfg))
  }

  class RebalanceScheduler {
    const cfg: Config
    const me: string
    const leaseStore: InMemoryLeaseStore
    var queue: seq<Job>
    var running: Option<Job>
    var history: seq<Execution>
    var failures: nat
    var tripped: bool
    var counter: nat
    var lastRunAt: Option<int>
    var leaseHeld: bool

    constructor (cfg: Config, me: string, leaseStore: InMemoryLeaseStore)
      ensures this.cfg == cfg && this.me == me && this.leaseStore == leaseStore && View() == FRESH
    {
      this.cfg, this.me, this.leaseStore := cfg, me, leaseStore;
      queue, running, history, failures, tripped := [], None, [], 0, false;
      counter, lastRunAt, leaseHeld := 0, None, false;
    }

    function View(): State
      reads this
    {
      State(queue, running, history, failures, tripped, counter, lastRunAt, leaseHeld)
    }

    method EnqueueJob(trigger: Trigger, dueAt: int) returns (job: Job)
      modifies this`queue, this`counter
      ensures View() == Enqueue(old(View()), trigger, dueAt)
      ensures job == Job(counter, trigger, dueAt) && counter == old(counter) + 1
      ensures QueueOk(old(View())) ==> QueueOk(View())
    {
      counter := counter + 1;
      job := Job(counter, trigger, dueAt);
      var i := 0;
      while i < |queue| && !Ahead(job, queue[i])
        invariant 0 <= i <= |queue|
        invariant queue == old(queue)
        invariant forall j :: 0 <= j < i ==> !Ahead(job, queue[j])
      {
        i := i + 1;
      }
      InsertAt(queue, job, i);
      queue := queue[..i] + [job] + queue[i..];
      if QueueOk(old(View())) {
        EnqueueKeepsOrder(old(View()), trigger, dueAt);
      }
    }

    /** Only the replica that owns the interval lease may emit. */
    method AcquireLease(now: int, clock: int) returns (ok: bool)
      modifies this`leaseHeld, leaseStore
      ensures Answer(leaseStore.leases, ok)
           == AcquireInterval(old(leaseHeld), old(leaseStore.leases), me, now, clock, cfg)
      ensures leaseHeld == ok
      ensures
        var key := match cfg.interval
          case Hourly => "rebalance:lease:hourly"
          case FourHours => "rebalance:lease:4h"
          case Daily => "rebalance:lease:daily";
        var table := old(leaseStore.leases);
        && (ok <==> key !in table || table[key].owner == me || table[key].expiresAt <= clock)
        && leaseStore.leases == if ok then table[key := Lease(me, now + cfg.leaseTtl)] else table
    {
      var key, until := LeaseKey(cfg.interval), now + cfg.leaseTtl;
      if leaseHeld {
        ok := leaseStore.Renew(key, me, until);
        if ok {
          return;
        }
        leaseHeld := false;
      }
      ok := leaseStore.Acquire(key, me, until, clock);
      if ok {
        leaseHeld := true;
      }
    }

    method ReleaseLease()
      modifies this`leaseHeld, leaseStore
      ensures !leaseHeld
      ensures leaseStore.leases
           == if old(leaseHeld) then MemoryRelease(old(leaseStore.leases), LeaseKey(cfg.interval), me).table
              else old(leaseStore.leases)
      ensures forall key :: key in leaseStore.leases ==>
        key in old(leaseStore.leases) && leaseStore.leases[key] == old(leaseStore.leases)[key]
      ensures forall key :: key in old(leaseStore.leases) && key !in leaseStore.leases ==>
        old(leaseHeld) && old(leaseStore.leases)[key].owner == me
    {
      if leaseHeld {
        var _ := leaseStore.Release(LeaseKey(cfg.interval), me);
        leaseHeld := false;
      }
    }

    method RunJob(job: Job, now: int, o: Outcome)
      requires running == Some(job)
      modifies this, leaseStore
      ensures View() == Complete(old(View()), now, o, cfg)
      ensures leaseStore.leases == GiveBack(old(View()), View(), old(leaseStore.leases), me, cfg)
      ensures
        var gas, limit := o.gasPrice, cfg.maxGasPrice;
        if job.trigger.Scheduled? && gas.Some? && limit.Some? && limit.value < gas.value then
          && history == old(history) + [Execution(job.id, job.trigger, now, true, true)]
          && failures == old(failures) && tripped == old(tripped) && lastRunAt == old(lastRunAt)
          && leaseHeld == old(leaseHeld) && leaseStore.leases == old(leaseStore.leases)
        else
          && history == old(history) + [Execution(job.id, job.trigger, now, o.success, false)]
          && failures == (if o.success then 0 else old(failures) + 1) && lastRunAt == Some(now)
          && (tripped <==> old(tripped) || (!o.success && old(failures) + 1 >= cfg.threshold))
          && leaseHeld == (old(leaseHeld) && !job.trigger.Scheduled?)
    {
      running := None;
      if job.trigger.Scheduled? && o.gasPrice.Some? {
        if cfg.maxGasPrice.Some? && o.gasPrice.value > cfg.maxGasPrice.value {
          history := history + [Execution(job.id, job.trigger, now, true, true)];
          return;
        }
      }
      history := history + [Execution(job.id, job.trigger, now, o.success, false)];
      lastRunAt := Some(now);
      if o.success {
        failures := 0;
      } else {
        failures := failures + 1;
        if failures >= cfg.threshold {
          tripped := true;
        }
      }
      if job.trigger.Scheduled? {
        ReleaseLease();
      }
    }

    /** A tick with nothing enqueued by others in between. `clock` is the wall clock, `now` may override it. */
    method RunTick(now: int, clock: int, outcome: Job -> Outcome)
      modifies this, leaseStore
      ensures Node(View(), leaseStore.leases)
           == Tick(Node(old(View()), old(leaseStore.leases)), me, now, clock, outcome, cfg)
    {
      ghost var start := Node(View(), leaseStore.leases);
      if tripped {
        return;
      }
      if !HasScheduled(queue) && (lastRunAt.None? || now - lastRunAt.value >= IntervalMs(cfg.interval)) {
        var mine := AcquireLease(now, clock);
        if mine {
          var _ := EnqueueJob(Scheduled, clock);
        }
      }
      assert Node(View(), leaseStore.leases) == Emit(start, me, now, clock, cfg);
      DrainDue(now, outcome);
    }

    /** Take due jobs off the head of the queue, one after another. */
    method DrainDue(now: int, outcome: Job -> Outcome)
      modifies this, leaseStore
      ensures View() == Drain(old(View()), now, outcome, cfg)
      ensures leaseStore.leases == GiveBack(old(View()), View(), old(leaseStore.leases), me, cfg)
    {
      while queue != [] && queue[0].dueAt <= now && !tripped
        invariant Drain(View(), now, outcome, cfg) == Drain(old(View()), now, outcome, cfg)
        invariant leaseStore.leases == GiveBack(old(View()), View(), old(leaseStore.leases), me, cfg)
        invariant leaseHeld ==> old(leaseHeld)
        decreases |queue|
      {
        var job := queue[0];
        queue, running := queue[1..], Some(job);
        RunJob(job, now, outcome(job));
      }
    }
  }

  lemma {:induction false} InsertAt(q: seq<Job>, job: Job, i: nat)
    requires i <= |q| && (forall j :: 0 <= j < i ==> !Ahead(job, q[j])) && (i < |q| ==> Ahead(job, q[i]))
    ensures Insert(q, job) == q[..i] + [job] + q[i..]
  {
    if i > 0 {
      InsertAt(q[1..], job, i - 1);
      assert q == [q[0]] + q[1..];
    }
  }

  // ---------------------------------------------------------------- runs

  /** What happens between two awaits: a job is queued, a tick takes the due head, its execution is recorded. */
  datatype Step =
    | Queue(trigger: Trigger, dueAt: int)
    | TakeHead(now: int)
    | Record(now: int, outcome: Outcome)

  predicate Enabled(s: State, step: Step) {
    match step
    case Queue(_, _) => true
    case TakeHead(now) => s.running.None? && HeadRuns(s, now)
    case Record(_, _) => s.running.Some?
  }

  function Next(s: State, step: Step, cfg: Config): State
    requires Enabled(s, step)
  {
    match step
    case Queue(trigger, dueAt) => Enqueue(s, trigger, dueAt)
    case TakeHead(_) => Take(s)
    case Record(now, outcome) => Complete(s, now, outcome, cfg)
  }

  predicate ValidRun(s: State, steps: seq<Step>, cfg: Config)
    decreases |steps|
  {
    steps == [] || (Enabled(s, steps[0]) && ValidRun(Next(s, steps[0], cfg), steps[1..], cfg))
  }

  function Run(s: State, steps: seq<Step>, cfg: Config): State
    requires ValidRun(s, steps, cfg)
    decreases |steps|
  {
    if steps == [] then s else Run(Next(s, steps[0], cfg), steps[1..], cfg)
  }

  /** The length of the failing suffix of the history, ignoring gas skips. */
  function FailingSuffix(h: seq<Execution>): nat {
    if h == [] then 0
    else
      var last, init := h[|h| - 1], h[..|h| - 1];
      if last.skipped then FailingSuffix(init) else if last.success then 0 else FailingSuffix(init) + 1
  }

  function InQueue(q: seq<Job>, id: nat): nat {
    if q == [] then 0 else (if q[0].id == id then 1 else 0) + InQueue(q[1..], id)
  }

  function InHistory(h: seq<Execution>, id: nat): nat {
    if h == [] then 0 else InHistory(h[..|h| - 1], id) + if h[|h| - 1].jobId == id then 1 else 0
  }

  function IsRunning(r: Option<Job>, id: nat): nat { if r.Some? && r.value.id == id then 1 else 0 }

  /** The job is exactly once in the queue, running or in the history, if it was ever enqueued. */
  predicate Accounted(s: State, id: nat) {
    InQueue(s.queue, id) + IsRunning(s.running, id) + InHistory(s.history, id)
    == if 1 <= id <= s.counter then 1 else 0
  }

  predicate SizesAddUp(s: State) {
    |s.queue| + (if s.running.Some? then 1 else 0) + |s.history| == s.counter
  }

  ghost predicate BreakerOk(s: State, cfg: Config) {
    && s.failures == FailingSuffix(s.history)
    && (s.tripped <==> s.failures >= Max(1, cfg.threshold))
    && (s.tripped ==> s.running.None?)
    && SkipsSucceed(s.history)
  }

  ghost predicate SkipsSucceed(h: seq<Execution>) {
    forall i :: 0 <= i < |h| && h[i].skipped ==> h[i].success
  }

  ghost predicate QueueOk(s: State) {
    Sorted(s.queue) && Served(s.queue) && forall i :: 0 <= i < |s.queue| ==> s.queue[i].id <= s.counter
  }

  ghost predicate Inv(s: State, cfg: Config) {
    QueueOk(s) && (forall id :: Accounted(s, id)) && SizesAddUp(s) && BreakerOk(s, cfg)
  }

  lemma {:induction false} InsertAddsId(q: seq<Job>, job: Job, id: nat)
    ensures InQueue(Insert(q, job), id) == InQueue(q, id) + if job.id == id then 1 else 0
    ensures |Insert(q, job)| == |q| + 1
  {
    if q == [] || Ahead(job, q[0]) {
      assert ([job] + q)[1..] == q;
    } else {
      InsertAddsId(q[1..], job, id);
      assert ([q[0]] + Insert(q[1..], job))[1..] == Insert(q[1..], job);
    }
  }

  lemma InHistoryGrows(h: seq<Execution>, e: Execution, id: nat)
    ensures InHistory(h + [e], id) == InHistory(h, id) + if e.jobId == id then 1 else 0
  {
    assert (h + [e])[..|h|] == h;
  }

  lemma RecordKeepsAccounts(s: State, now: int, o: Outcome, cfg: Config, id: nat)
    requires s.running.Some? && Accounted(s, id) && SizesAddUp(s)
    ensures Accounted(Complete(s, now, o, cfg), id) && SizesAddUp(Complete(s, now, o, cfg))
  {
    var after := Complete(s, now, o, cfg);
    InHistoryGrows(s.history, after.history[|s.history|], id);
    assert after.history == s.history + [after.history[|s.history|]];
  }

  lemma StepKeepsAccounts(s: State, step: Step, cfg: Config, id: nat)
    requires Enabled(s, step) && Accounted(s, id) && SizesAddUp(s)
    ensures Accounted(Next(s, step, cfg), id) && SizesAddUp(Next(s, step, cfg))
  {
    match step {
      case Queue(trigger, dueAt) =>
        InsertAddsId(s.queue, Job(s.counter + 1, trigger, dueAt), id);
      case TakeHead(_) =>
      case Record(now, o) => RecordKeepsAccounts(s, now, o, cfg, id);
    }
  }

  lemma FailingSuffixGrows(h: seq<Execution>, e: Execution)
    ensures FailingSuffix(h + [e]) ==
      if e.skipped then FailingSuffix(h) else if e.success then 0 else FailingSuffix(h) + 1
  {
    assert (h + [e])[..|h|] == h;
  }

  lemma SkipsSucceedGrows(h: seq<Execution>, e: Execution)
    requires SkipsSucceed(h) && (e.skipped ==> e.success)
    ensures SkipsSucceed(h + [e])
  {
  }

  lemma RecordKeepsBreaker(s: State, now: int, o: Outcome, cfg: Config)
    requires s.running.Some? && BreakerOk(s, cfg)
    ensures BreakerOk(Complete(s, now, o, cfg), cfg)
  {
    var e := ExecutionOf(s.running.value, now, o, cfg);
    FailingSuffixGrows(s.history, e);
    SkipsSucceedGrows(s.history, e);
    assert Complete(s, now, o, cfg).history == s.history + [e];
  }

  lemma StepKeepsBreaker(s: State, step: Step, cfg: Config)
    requires Enabled(s, step) && BreakerOk(s, cfg)
    ensures BreakerOk(Next(s, step, cfg), cfg)
  {
    if step.Record? {
      RecordKeepsBreaker(s, step.now, step.outcome, cfg);
    }
  }

  lemma StepKeepsInv(s: State, step: Step, cfg: Config)
    requires Enabled(s, step) && Inv(s, cfg)
    ensures Inv(Next(s, step, cfg), cfg)
  {
    forall id
      ensures Accounted(Next(s, step, cfg), id) && SizesAddUp(Next(s, step, cfg))
    {
      assert Accounted(s, id);
      StepKeepsAccounts(s, step, cfg, id);
    }
    assert Accounted(Next(s, step, cfg), 0);
    StepKeepsBreaker(s, step, cfg);
    StepKeepsOrder(s, step, cfg);
  }

  lemma StepKeepsOrder(s: State, step: Step, cfg: Config)
    requires Enabled(s, step) && QueueOk(s)
    ensures QueueOk(Next(s, step, cfg))
  {
    if step.Queue? {
      EnqueueKeepsOrder(s, step.trigger, step.dueAt);
    }
  }

  lemma EnqueueKeepsOrder(s: State, trigger: Trigger, dueAt: int)
    requires QueueOk(s)
    ensures QueueOk(Enqueue(s, trigger, dueAt))
  {
    var job := Job(s.counter + 1, trigger, dueAt);
    InsertKeepsService(s.queue, job);
    var _ := InsertKeepsOrder(s.queue, job);
  }

  lemma {:induction false} RunKeepsInv(s: State, steps: seq<Step>, cfg: Config)
    requires ValidRun(s, steps, cfg) && Inv(s, cfg)
    ensures Inv(Run(s, steps, cfg), cfg)
    decreases |steps|
  {
    if steps != [] {
      StepKeepsInv(s, steps[0], cfg);
      RunKeepsInv(Next(s, steps[0], cfg), steps[1..], cfg);
    }
  }

  /**
   * In every run, with jobs queued at any moment: the queue is sorted; every job ever enqueued is exactly once in
   * the queue, running or in the history; the failure count is the failing suffix of the history; and the breaker
   * is set exactly when that suffix reaches the threshold (a threshold below one acts as one).
   */
  lemma SchedulerKeepsItsBooks(steps: seq<Step>, cfg: Config)
    requires ValidRun(FRESH, steps, cfg)
    ensures var s := Run(FRESH, steps, cfg);
      && Sorted(s.queue)
      && (forall id :: Accounted(s, id))
      && s.failures == FailingSuffix(s.history)
      && (s.tripped <==> FailingSuffix(s.history) >= Max(1, cfg.threshold))
  {
    assert forall id :: Accounted(FRESH, id);
    RunKeepsInv(FRESH, steps, cfg);
  }

  /**
   * In every run, of any two queued jobs: spikes stand before all others, TVL jobs before manual and scheduled ones,
   * manual jobs before scheduled ones; within one trigger due times do not decrease, and equal ones stand by age.
   */
  lemma QueueServesByTrigger(steps: seq<Step>, cfg: Config, i: nat, j: nat)
    requires ValidRun(FRESH, steps, cfg) && i < j < |Run(FRESH, steps, cfg).queue|
    ensures var a, b := Run(FRESH, steps, cfg).queue[i], Run(FRESH, steps, cfg).queue[j];
      && (b.trigger.UtilizationSpike? ==> a.trigger.UtilizationSpike?)
      && (b.trigger.TvlChange? ==> a.trigger.UtilizationSpike? || a.trigger.TvlChange?)
      && (b.trigger.Manual? ==> !a.trigger.Scheduled?)
      && (a.trigger == b.trigger ==> a.dueAt < b.dueAt || (a.dueAt == b.dueAt && a.id < b.id))
  {
    assert forall id :: Accounted(FRESH, id);
    RunKeepsInv(FRESH, steps, cfg);
    assert InOrder(Run(FRESH, steps, cfg).queue[i], Run(FRESH, steps, cfg).queue[j]);
  }

  ghost function Failures(h: seq<Execution>, from: nat): set<int> { set i | from <= i < |h| && !h[i].success }

  /** From position `from` on, the history holds only failures and gas skips, and at least n failures. */
  ghost predicate FailsFrom(h: seq<Execution>, from: nat, n: int) {
    (forall i :: from <= i < |h| ==> h[i].skipped || !h[i].success) && n <= |Failures(h, from)|
  }

  /** The breaker is set exactly when the last max(1, threshold) executions that were not skipped all failed. */
  lemma BreakerIff(steps: seq<Step>, cfg: Config)
    requires ValidRun(FRESH, steps, cfg)
    ensures var s := Run(FRESH, steps, cfg);
      s.tripped <==> exists from :: FailsFrom(s.history, from, Max(1, cfg.threshold))
  {
    var s := Run(FRESH, steps, cfg);
    assert forall id :: Accounted(FRESH, id);
    RunKeepsInv(FRESH, steps, cfg);
    var start := SuffixFails(s.history);
    assert s.tripped ==> FailsFrom(s.history, start, Max(1, cfg.threshold));
    if from: nat :| FailsFrom(s.history, from, Max(1, cfg.threshold)) {
      LongestSuffix(s.history, from);
    }
  }

  lemma OneMoreFailure(h: seq<Execution>, from: nat)
    requires from < |h|
    ensures |Failures(h, from)| == |Failures(h[..|h| - 1], from)| + if h[|h| - 1].success then 0 else 1
  {
    var before := Failures(h[..|h| - 1], from);
    assert Failures(h, from) == if h[|h| - 1].success then before else before + {|h| - 1};
  }

  lemma {:induction false} SuffixFails(h: seq<Execution>) returns (from: nat)
    requires SkipsSucceed(h)
    ensures from <= |h| && FailsFrom(h, from, FailingSuffix(h))
  {
    if h == [] || (!h[|h| - 1].skipped && h[|h| - 1].success) {
      from := |h|;
    } else {
      from := SuffixFails(h[..|h| - 1]);
      OneMoreFailure(h, from);
    }
  }

  lemma {:induction false} LongestSuffix(h: seq<Execution>, from: nat)
    requires FailsFrom(h, from, 0) && SkipsSucceed(h)
    ensures |Failures(h, from)| <= FailingSuffix(h)
  {
    if from < |h| {
      LongestSuffix(h[..|h| - 1], from);
      OneMoreFailure(h, from);
    } else {
      assert Failures(h, from) == {};
    }
  }

  /** No job runs after the breaker is set. */
  lemma {:induction false} NothingRunsAfterTheBreaker(s: State, steps: seq<Step>, cfg: Config)
    requires s.tripped && s.running.None? && ValidRun(s, steps, cfg)
    ensures Run(s, steps, cfg).history == s.history && Run(s, steps, cfg).tripped
    decreases |steps|
  {
    if steps != [] {
      NothingRunsAfterTheBreaker(Next(s, steps[0], cfg), steps[1..], cfg);
    }
  }

  // ---------------------------------------------------------------- statistics

  datatype Stats = Stats(executed: nat, succeeded: nat, failed: nat, skippedGas: nat, queueDepth: nat, enqueued: nat)

  predicate Succeeded(e: Execution) { e.success && !e.skipped }

  predicate Failed(e: Execution) { !e.success }

  predicate SkippedForGas(e: Execution) { e.skipped }

  function CountWhere(h: seq<Execution>, p: Execution -> bool): nat {
    if h == [] then 0 else CountWhere(h[..|h| - 1], p) + if p(h[|h| - 1]) then 1 else 0
  }

  function GetStats(s: State): Stats {
    Stats(|s.history|,
          CountWhere(s.history, Succeeded),
          CountWhere(s.history, Failed),
          CountWhere(s.history, SkippedForGas),
          |s.queue|, s.counter)
  }

  lemma {:induction false} CountsPartition(h: seq<Execution>)
    requires SkipsSucceed(h)
    ensures |h| == CountWhere(h, Succeeded) + CountWhere(h, Failed)
                 + CountWhere(h, SkippedForGas)
  {
    if h != [] {
      CountsPartition(h[..|h| - 1]);
    }
  }

  ghost function Places(h: seq<Execution>, p: Execution -> bool): set<int> { set i | 0 <= i < |h| && p(h[i]) }

  lemma {:induction false} CountIsSize(h: seq<Execution>, p: Execution -> bool)
    ensures CountWhere(h, p) == |Places(h, p)|
  {
    if h == [] {
      assert Places(h, p) == {};
    } else {
      var last := |h| - 1;
      CountIsSize(h[..last], p);
      var before := Places(h[..last], p);
      assert Places(h, p) == if p(h[last]) then before + {last} else before;
    }
  }

  /** Each figure of the dashboard counts what its name says. */
  lemma StatsCount(s: State)
    ensures var stats := GetStats(s);
      && stats.succeeded == |Places(s.history, (e: Execution) => e.success && !e.skipped)|
      && stats.failed == |Places(s.history, (e: Execution) => !e.success)|
      && stats.skippedGas == |Places(s.history, (e: Execution) => e.skipped)|
      && stats.executed == |s.history| && stats.queueDepth == |s.queue| && stats.enqueued == s.counter
  {
    CountIsSize(s.history, Succeeded);
    CountIsSize(s.history, Failed);
    CountIsSize(s.history, SkippedForGas);
    assert Places(s.history, Succeeded) == Places(s.history, (e: Execution) => e.success && !e.skipped);
    assert Places(s.history, Failed) == Places(s.history, (e: Execution) => !e.success);
    assert Places(s.history, SkippedForGas) == Places(s.history, (e: Execution) => e.skipped);
  }

  /** The dashboard adds up: executed = succeeded + failed + skipped, enqueued = executed + queued + running. */
  lemma StatsAddUp(steps: seq<Step>, cfg: Config)
    requires ValidRun(FRESH, steps, cfg)
    ensures var s := Run(FRESH, steps, cfg);
      var stats := GetStats(s);
      && stats.executed == stats.succeeded + stats.failed + stats.skippedGas
      && stats.enqueued == stats.executed + stats.queueDepth + (if s.running.Some? then 1 else 0)
  {
    var s := Run(FRESH, steps, cfg);
    assert forall id :: Accounted(FRESH, id);
    RunKeepsInv(FRESH, steps, cfg);
    CountsPartition(s.history);
  }

  // ---------------------------------------------------------------- what a tick does

  function ExecutionOf(job: Job, now: int, o: Outcome, cfg: Config): Execution {
    if SkipsForGas(job, o, cfg) then Execution(job.id, job.trigger, now, true, true)
    else Execution(job.id, job.trigger, now, o.success, false)
  }

  function Executions(jobs: seq<Job>, now: int, outcome: Job -> Outcome, cfg: Config): seq<Execution> {
    seq(|jobs|, i requires 0 <= i < |jobs| => ExecutionOf(jobs[i], now, outcome(jobs[i]), cfg))
  }

  lemma TakenJobIsRecorded(s: State, now: int, o: Outcome, cfg: Config)
    requires s.queue != []
    ensures var next := Complete(Take(s), now, o, cfg);
      next.queue == s.queue[1..] && next.history == s.history + [ExecutionOf(s.queue[0], now, o, cfg)]
  {
  }

  lemma FirstExecution(q: seq<Job>, rest: nat, now: int, outcome: Job -> Outcome, cfg: Config)
    requires q != [] && rest <= |q| - 1
    ensures Executions(q[..rest + 1], now, outcome, cfg)
         == [ExecutionOf(q[0], now, outcome(q[0]), cfg)] + Executions(q[1..][..rest], now, outcome, cfg)
  {
  }

  /**
   * A tick runs a prefix of the queue, in order, and stops only at the end, at a tripped breaker, or at a head
   * that is not due: such a head blocks every due job behind it.
   */
  lemma {:induction false} DrainRunsAPrefix(s: State, now: int, outcome: Job -> Outcome, cfg: Config)
    returns (n: nat)
    ensures n <= |s.queue| && forall i :: 0 <= i < n ==> s.queue[i].dueAt <= now
    ensures var end := Drain(s, now, outcome, cfg);
      && end.queue == s.queue[n..]
      && end.history == s.history + Executions(s.queue[..n], now, outcome, cfg)
      && (n == |s.queue| || end.tripped || s.queue[n].dueAt > now)
    decreases |s.queue|
  {
    if HeadRuns(s, now) {
      TakenJobIsRecorded(s, now, outcome(s.queue[0]), cfg);
      var rest := DrainRunsAPrefix(Complete(Take(s), now, outcome(s.queue[0]), cfg), now, outcome, cfg);
      n := rest + 1;
      FirstExecution(s.queue, rest, now, outcome, cfg);
    } else {
      n := 0;
    }
  }

  lemma EmitKeepsOrder(n: Node, me: string, now: int, clock: int, cfg: Config)
    requires QueueOk(n.s)
    ensures QueueOk(Emit(n, me, now, clock, cfg).s)
    ensures Emit(n, me, now, clock, cfg).s.history == n.s.history
  {
    EnqueueKeepsOrder(n.s.(leaseHeld := true), Scheduled, clock);
  }

  /**
   * After any run, of any two executions of a tick with nothing queued meanwhile: spikes come before all others, TVL
   * jobs before manual and scheduled ones, manual jobs before scheduled ones; within one trigger the jobs come by due
   * time, and those of equal due time by age.
   */
  lemma TickExecutesByTrigger(
    steps: seq<Step>, n: Node, me: string, now: int, clock: int, outcome: Job -> Outcome, cfg: Config,
    i: nat, j: nat)
    returns (a: Job, b: Job)
    requires ValidRun(FRESH, steps, cfg) && n.s == Run(FRESH, steps, cfg)
    requires |n.s.history| <= i < j < |Tick(n, me, now, clock, outcome, cfg).s.history|
    ensures var h := Tick(n, me, now, clock, outcome, cfg).s.history;
      && n.s.history <= h
      && h[i].jobId == a.id && h[i].trigger == a.trigger && h[j].jobId == b.id && h[j].trigger == b.trigger
    ensures b.trigger.UtilizationSpike? ==> a.trigger.UtilizationSpike?
    ensures b.trigger.TvlChange? ==> a.trigger.UtilizationSpike? || a.trigger.TvlChange?
    ensures b.trigger.Manual? ==> !a.trigger.Scheduled?
    ensures a.trigger == b.trigger ==> a.dueAt < b.dueAt || (a.dueAt == b.dueAt && a.id < b.id)
  {
    assert forall id :: Accounted(FRESH, id);
    RunKeepsInv(FRESH, steps, cfg);
    EmitKeepsOrder(n, me, now, clock, cfg);
    a, b := DrainServes(Emit(n, me, now, clock, cfg).s, now, outcome, cfg, i, j);
    assert InOrder(a, b);
  }

  lemma DrainServes(s: State, now: int, outcome: Job -> Outcome, cfg: Config, i: nat, j: nat) returns (a: Job, b: Job)
    requires Served(s.queue) && |s.history| <= i < j < |Drain(s, now, outcome, cfg).history|
    ensures var h := Drain(s, now, outcome, cfg).history;
      && s.history <= h
      && h[i].jobId == a.id && h[i].trigger == a.trigger && h[j].jobId == b.id && h[j].trigger == b.trigger
    ensures InOrder(a, b)
  {
    var n := DrainRunsAPrefix(s, now, outcome, cfg);
    a, b := s.queue[i - |s.history|], s.queue[j - |s.history|];
  }

  /** A tick runs nothing exactly when the queue is empty, the breaker is set, or the head is not due. */
  lemma HeadBlocksTheQueueIff(s: State, now: int, outcome: Job -> Outcome, cfg: Config)
    ensures Drain(s, now, outcome, cfg) == s <==> s.queue == [] || s.tripped || s.queue[0].dueAt > now
  {
    if HeadRuns(s, now) {
      var n := DrainRunsAPrefix(s, now, outcome, cfg);
      DrainMoves(s, now, outcome, cfg);
    }
  }

  lemma DrainMoves(s: State, now: int, outcome: Job -> Outcome, cfg: Config)
    requires HeadRuns(s, now)
    ensures |Drain(s, now, outcome, cfg).queue| < |s.queue|
  {
    var next := Complete(Take(s), now, outcome(s.queue[0]), cfg);
    TakenJobIsRecorded(s, now, outcome(s.queue[0]), cfg);
    var n := DrainRunsAPrefix(next, now, outcome, cfg);
  }

  // ---------------------------------------------------------------- who emits the scheduled job

  /** What a replica itself knows: no breaker, none pending, and its last run, if any, an interval or more ago. */
  predicate OwnGuard(s: State, now: int, cfg: Config) {
    && !s.tripped
    && (forall i :: 0 <= i < |s.queue| ==> !s.queue[i].trigger.Scheduled?)
    && (s.lastRunAt.Some? ==>
          match cfg.interval
          case Hourly => s.lastRunAt.value + 60 * 60 * 1000 <= now
          case FourHours => s.lastRunAt.value + 4 * 60 * 60 * 1000 <= now
          case Daily => s.lastRunAt.value + 24 * 60 * 60 * 1000 <= now)
  }

  predicate LeaseIsOpen(t: Table, me: string, clock: int, cfg: Config) {
    var key := LeaseKey(cfg.interval);
    key in t ==> t[key].owner == me || t[key].expiresAt <= clock
  }

  predicate Emits(n: Node, me: string, now: int, clock: int, cfg: Config) {
    Emit(n, me, now, clock, cfg).s.counter != n.s.counter
  }

  /** A tick emits the scheduled job exactly when the replica's own guard holds and nobody else's lease is unexpired. */
  lemma EmitsIff(n: Node, me: string, now: int, clock: int, cfg: Config)
    ensures Emits(n, me, now, clock, cfg) <==> OwnGuard(n.s, now, cfg) && LeaseIsOpen(n.table, me, clock, cfg)
    ensures Emits(n, me, now, clock, cfg) ==>
      var e := Emit(n, me, now, clock, cfg);
      && e.s == Enqueue(n.s.(leaseHeld := true), Scheduled, clock)
      && e.table == n.table[LeaseKey(cfg.interval) := Lease(me, now + cfg.leaseTtl)]
      && Job(n.s.counter + 1, Scheduled, clock) in e.s.queue && |e.s.queue| == |n.s.queue| + 1
  {
    InsertHasJob(n.s.queue, Job(n.s.counter + 1, Scheduled, clock));
  }

  lemma {:induction false} InsertHasJob(q: seq<Job>, job: Job)
    ensures job in Insert(q, job) && |Insert(q, job)| == |q| + 1
  {
    if q != [] && !Ahead(job, q[0]) {
      InsertHasJob(q[1..], job);
    }
  }

  /**
   * While another replica's lease is unexpired, a tick emits nothing and leaves the table alone: two replicas
   * never own the interval at the same time.
   */
  lemma TickRespectsTheLease(n: Node, me: string, now: int, clock: int, outcome: Job -> Outcome, cfg: Config)
    requires LeaseKey(cfg.interval) in n.table
    requires n.table[LeaseKey(cfg.interval)].owner != me && clock < n.table[LeaseKey(cfg.interval)].expiresAt
    ensures Emit(n, me, now, clock, cfg).s.queue == n.s.queue
    ensures Tick(n, me, now, clock, outcome, cfg).table == n.table
  {
    var emitted := Emit(n, me, now, clock, cfg);
    assert emitted.table == n.table;
  }

  predicate RanScheduled(executions: seq<Execution>) {
    exists i :: 0 <= i < |executions| && executions[i].trigger.Scheduled? && !executions[i].skipped
  }

  lemma RanScheduledFirst(e: Execution, rest: seq<Execution>)
    ensures RanScheduled([e] + rest) <==> (e.trigger.Scheduled? && !e.skipped) || RanScheduled(rest)
  {
    var all := [e] + rest;
    if RanScheduled(rest) {
      var i :| 0 <= i < |rest| && rest[i].trigger.Scheduled? && !rest[i].skipped;
      assert all[i + 1] == rest[i];
    }
    assert all[0] == e;
  }

  /** What a tick has added to the history. */
  function NewExecutions(before: State, after: State): seq<Execution>
    requires |before.history| <= |after.history|
  {
    after.history[|before.history|..]
  }

  /** Draining gives the lease up exactly when it runs a scheduled job. */
  lemma {:induction false} DrainGivesUpTheLeaseIff(s: State, now: int, outcome: Job -> Outcome, cfg: Config)
    ensures var end := Drain(s, now, outcome, cfg);
      && s.history <= end.history
      && (end.leaseHeld <==> s.leaseHeld && !RanScheduled(NewExecutions(s, end)))
    decreases |s.queue|
  {
    if HeadRuns(s, now) {
      var job := s.queue[0];
      var next := Complete(Take(s), now, outcome(job), cfg);
      var end := Drain(next, now, outcome, cfg);
      var e := ExecutionOf(job, now, outcome(job), cfg);
      TakenJobIsRecorded(s, now, outcome(job), cfg);
      DrainGivesUpTheLeaseIff(next, now, outcome, cfg);
      assert NewExecutions(s, end) == [e] + NewExecutions(next, end);
      RanScheduledFirst(e, NewExecutions(next, end));
    } else {
      assert NewExecutions(s, s) == [];
    }
  }

  /**
   * After a tick that emits, whatever else was queued, the interval is free again exactly when the tick ran its
   * scheduled job; and any other replica's next tick then emits exactly when that replica's own guard holds.
   */
  lemma CompletedRunLeavesItToTheOwnClock(
    n: Node, me: string, now: int, clock: int, outcome: Job -> Outcome, cfg: Config,
    other: State, you: string, later: int, laterClock: int)
    requires Emits(n, me, now, clock, cfg)
    ensures var end := Tick(n, me, now, clock, outcome, cfg);
      && n.s.history <= end.s.history
      && (LeaseKey(cfg.interval) !in end.table <==> RanScheduled(NewExecutions(n.s, end.s)))
      && (RanScheduled(NewExecutions(n.s, end.s)) ==>
            (Emits(Node(other, end.table), you, later, laterClock, cfg) <==> OwnGuard(other, later, cfg)))
  {
    var emitted := Emit(n, me, now, clock, cfg);
    EmitsIff(n, me, now, clock, cfg);
    DrainGivesUpTheLeaseIff(emitted.s, now, outcome, cfg);
    EmitsIff(Node(other, Tick(n, me, now, clock, outcome, cfg).table), you, later, laterClock, cfg);
  }

  // ---------------------------------------------------------------- any number of replicas

  datatype Fleet = Fleet(replicas: seq<State>, table: Table)

  datatype FleetTick = FleetTick(replica: nat, now: int, clock: int, outcome: Job -> Outcome)

  function TickOf(n: Node, me: string, t: FleetTick, cfg: Config): Node {
    Tick(n, me, t.now, t.clock, t.outcome, cfg)
  }

  predicate Fits(names: seq<string>, ticks: seq<FleetTick>) {
    forall i :: 0 <= i < |ticks| ==> ticks[i].replica < |names|
  }

  function FleetNext(f: Fleet, names: seq<string>, t: FleetTick, cfg: Config): Fleet
    requires t.replica < |f.replicas| == |names|
  {
    var n := TickOf(Node(f.replicas[t.replica], f.table), names[t.replica], t, cfg);
    Fleet(f.replicas[t.replica := n.s], n.table)
  }

  function FleetRun(f: Fleet, names: seq<string>, ticks: seq<FleetTick>, cfg: Config): (end: Fleet)
    requires |f.replicas| == |names| && Fits(names, ticks)
    ensures |end.replicas| == |names|
    decreases |ticks|
  {
    if ticks == [] then f
    else
      assert ticks[0].replica < |names|;
      FleetRun(FleetNext(f, names, ticks[0], cfg), names, ticks[1..], cfg)
  }

  /** One replica with the lease store to itself: only its own ticks. */
  function Solo(s: State, me: string, ticks: seq<FleetTick>, i: nat, cfg: Config): State
    decreases |ticks|
  {
    if ticks == [] then s
    else
      Solo(if ticks[0].replica == i then TickOf(Node(s, map[]), me, ticks[0], cfg).s else s, me, ticks[1..], i, cfg)
  }

  predicate Idle(s: State) { s.queue == [] && s.running.None? && !s.leaseHeld }

  /** The job emitted is due at once and not skipped for gas; it may succeed or fail. */
  ghost predicate Prompt(t: FleetTick, cfg: Config) {
    t.clock <= t.now && forall job :: !SkipsForGas(job, t.outcome(job), cfg)
  }

  lemma IdleTick(s: State, table: Table, me: string, t: FleetTick, cfg: Config)
    requires Idle(s) && LeaseKey(cfg.interval) !in table && Prompt(t, cfg)
    ensures var end := TickOf(Node(s, table), me, t, cfg);
      && Idle(end.s) && LeaseKey(cfg.interval) !in end.table
      && end.s == TickOf(Node(s, map[]), me, t, cfg).s
      && end.s.history == s.history +
           if !OwnGuard(s, t.now, cfg) then []
           else
             var job := Job(s.counter + 1, Scheduled, t.clock);
             [Execution(job.id, Scheduled, t.now, t.outcome(job).success, false)]
  {
    EmitsIff(Node(s, table), me, t.now, t.clock, cfg);
    EmitsIff(Node(s, map[]), me, t.now, t.clock, cfg);
    if OwnGuard(s, t.now, cfg) {
      LoneJobRuns(Enqueue(s.(leaseHeld := true), Scheduled, t.clock), t, cfg);
    }
  }

  lemma LoneJobRuns(s: State, t: FleetTick, cfg: Config)
    requires |s.queue| == 1 && s.queue[0].trigger.Scheduled? && s.queue[0].dueAt <= t.now
    requires s.running.None? && !s.tripped && Prompt(t, cfg)
    ensures var end := Drain(s, t.now, t.outcome, cfg);
      && Idle(end)
      && end.history == s.history
           + [Execution(s.queue[0].id, Scheduled, t.now, t.outcome(s.queue[0]).success, false)]
  {
    var done := Complete(Take(s), t.now, t.outcome(s.queue[0]), cfg);
    assert done.queue == [];
    assert Drain(done, t.now, t.outcome, cfg) == done;
  }

  ghost predicate AllIdle(f: Fleet, cfg: Config) {
    && LeaseKey(cfg.interval) !in f.table
    && forall i :: 0 <= i < |f.replicas| ==> Idle(f.replicas[i])
  }

  /**
   * Between ticks that finish the job they emit, the lease excludes nobody: in a fleet of any size, whatever the
   * order and the times of the ticks, every replica does exactly what it would do with the lease store to itself.
   */
  lemma {:induction false} LeaseExcludesNobody(
    f: Fleet, names: seq<string>, ticks: seq<FleetTick>, cfg: Config, i: nat)
    requires |f.replicas| == |names| && Fits(names, ticks) && i < |names|
    requires AllIdle(f, cfg) && forall k :: 0 <= k < |ticks| ==> Prompt(ticks[k], cfg)
    ensures FleetRun(f, names, ticks, cfg).replicas[i] == Solo(f.replicas[i], names[i], ticks, i, cfg)
    decreases |ticks|
  {
    if ticks != [] {
      var t := ticks[0];
      assert t.replica < |names| && Prompt(t, cfg);
      IdleTick(f.replicas[t.replica], f.table, names[t.replica], t, cfg);
      LeaseExcludesNobody(FleetNext(f, names, t, cfg), names, ticks[1..], cfg, i);
    }
  }

  lemma {:induction false} SoloOfOneTick(s: State, me: string, ticks: seq<FleetTick>, i: nat, k: nat, cfg: Config)
    requires k < |ticks| && forall j :: 0 <= j < |ticks| ==> (ticks[j].replica == i <==> j == k)
    ensures Solo(s, me, ticks, i, cfg) == TickOf(Node(s, map[]), me, ticks[k], cfg).s
    decreases |ticks|
  {
    if k == 0 {
      NoTickNoChange(TickOf(Node(s, map[]), me, ticks[0], cfg).s, me, ticks[1..], i, cfg);
    } else {
      SoloOfOneTick(s, me, ticks[1..], i, k - 1, cfg);
    }
  }

  lemma {:induction false} NoTickNoChange(s: State, me: string, ticks: seq<FleetTick>, i: nat, cfg: Config)
    requires forall j :: 0 <= j < |ticks| ==> ticks[j].replica != i
    ensures Solo(s, me, ticks, i, cfg) == s
    decreases |ticks|
  {
    if ticks != [] {
      NoTickNoChange(s, me, ticks[1..], i, cfg);
    }
  }

  /** So every one of any number of fresh replicas, ticking once each and however close together, runs the interval. */
  lemma EveryReplicaRunsTheInterval(names: seq<string>, ticks: seq<FleetTick>, cfg: Config, i: nat)
    requires |ticks| == |names| && i < |names|
    requires forall k :: 0 <= k < |ticks| ==> ticks[k].replica == k && Prompt(ticks[k], cfg)
    ensures Fits(names, ticks)
    ensures var start := Fleet(seq(|names|, k => FRESH), map[]);
      FleetRun(start, names, ticks, cfg).replicas[i].history
      == [Execution(1, Scheduled, ticks[i].now, ticks[i].outcome(Job(1, Scheduled, ticks[i].clock)).success, false)]
  {
    var start := Fleet(seq(|names|, k => FRESH), map[]);
    LeaseExcludesNobody(start, names, ticks, cfg, i);
    SoloOfOneTick(FRESH, names[i], ticks, i, i, cfg);
    IdleTick(FRESH, map[], names[i], ticks[i], cfg);
  }
}
