# NeuroWealth agent: a verified model

The NeuroWealth vault keeps depositors' USDC in yield protocols on Stellar. Its off-chain agent (`agent/src`) watches
the vault, decides where the funds go, submits the transactions and recovers after outages; a WhatsApp service
(`whatsapp/src`) signs users up and takes their orders. This project models the protocols and state machines in that
code and proves what holds over all of their runs. The classes carry the fields the source updates and their methods
are proved equal to specification functions; the lemmas are about those functions, over every sequence of steps,
crashes, interleavings and clock readings the text below allows. What each main operation does is also stated on the
fields and numbers alone, without those functions.

| file | what it models |
|---|---|
| `RecoveryModel`, `RecoveryOrchestrator`, `RecoveryOutcomes`, `RecoveryRuns`, `RecoveryCrashes` | service recovery: restore, backfill, deduplicate, gate, execute; what one run does to every job and store; runs that crash between any two awaited writes |
| `Failover` | leader failover of N managers over one lease record with separate loads and saves |
| `AccountSequence` | the per-account promise chain around a Redis token with a TTL |
| `EventListener` | paginated event polling with an advancing start ledger; polls fail and overlap |
| `OtpVerification` | one-time codes, Redis command by Redis command |
| `Leases`, `Scheduler` | the two lease stores; the rebalance queue, breaker, history and interval lease |
| `YieldRanking`, `PendingRebalance` | which protocol a yield check picks; submitting a rebalance once |
| `RpcBreaker`, `RateLimiter` | the RPC circuit breaker and latency percentiles; the fixed-window message limiter |
| `StrategyAllocation`, `Metrics` | rounded allocation targets; bounded histories, shares, hourly flows |
| `Onboarding`, `OnboardingRuns` | WhatsApp sessions, codes, custodial wallets and the webhook that drives them |
| `Prelude`, `Sorting` | small vocabulary shared by the others |

## What is assumed of the surroundings

- Recovery: reads of key sets are snapshots (the in-memory adapters hand out live sets); what the state backup
  restores, what the chain reports and what the database totals are at reconciliation are inputs of a run; between two
  runs Redis and the database may change in any way, but no other action lands on chain. At-most-once execution also
  assumes that the confirmed map lists every key that has landed. For the event index, nobody else moves the checkpoint
  or touches the index, and while there is no checkpoint the state backup goes on restoring the same one. For what a
  crash makes repeat, queued jobs have distinct ids.
- Failover: bootstrap happens at startup, when a manager is not primary (it then decides as a check does); store calls
  do not fail; the clock does not go back. Ids are ordered as the source orders their strings.
- Pending rebalance: submissions and reconciliations one at a time; the RPC acknowledges with the hash that was sent.
- Event listener: the chain's history is final, and a page holds the events of its stretch in order.
- Numbers are exact integers and rationals; `Math.round` rounds halves up.

## Where the code and its documentation differ

The model follows the code. Each of these is a lemma with its exact condition or a concrete run.

- Recovery promises that workers never duplicate an action (`agent/src/serviceRecovery.ts:5-8`). That rests on the
  confirmed map being complete: without it a crash right after an action landed makes it land again, exactly as
  `RecoveryCrashes.CrashBeforeRecordingRepeatsIff` says, for any queue. Conversely, a key that a batch holds twice is
  recorded as processed before its own copy executes, and is lost if the run is blocked or crashes first:
  `RecoveryRuns.BlockedRunLosesKeyIff`, `RecoveryCrashes.CrashBuriesKeyIff`.
- A negative checkpoint passes the data-gap gate without any backfill: `RecoveryRuns.NegativeCheckpointSkipsBackfill`.
- Failover's tie-break can leave nobody primary. Every run has a primary once somebody promoted, exactly when the
  record found at startup names nobody below a manager: `Failover.TieBreaksAlwaysLeaveAPrimaryIff`.
- The event listener's comment says it resumes after the restored checkpoint (`agent/src/eventListener.ts:45-46`); the
  code starts at the latest ledger: `EventListener.NothingBeforeTheStartIsHanded`.
- The attempt limit on one-time codes (`agent/src/authService.ts:149`) is exceeded when verifications overlap a
  re-issue: six comparisons with the only code ever written are reachable
  (`OtpVerification.OverlappingVerificationBreaksTheLimit`). The exact bound on the comparisons with one code is five,
  plus one for each uncounted verification in flight when it was written, plus five for each that has yet to delete the
  counter (`ComparisonsPerCodeIff`); the limit holds exactly when there is none of either kind (`AttemptLimitHoldsIff`).
- The scheduler's lease is said to let one replica own an interval (`agent/src/scheduler.ts:13-14`). It does, one at a
  time: `Scheduler.EmitsIff` is the exact guard. But a completed run frees the lease at once, so that any other
  replica's own clock alone decides (`CompletedRunLeavesItToTheOwnClock`), and a fleet of any size whose ticks finish
  the jobs they emit behaves as if each replica had the lease store to itself (`LeaseExcludesNobody`): every replica
  runs the interval (`EveryReplicaRunsTheInterval`). A head of the queue that is not due blocks due jobs behind it:
  `Scheduler.HeadBlocksTheQueueIff`.
- The half-open circuit is described as allowing one probe (`agent/src/rpcClient.ts:6`, `:144`); every call passes and
  the circuit never reopens until a success: `RpcBreaker.HalfOpenNeverReopens`.
- The allocation target is meant to split the pool; it adds up to 10001 basis points on a half tie, which some mix of n
  depositors produces exactly when n is a multiple of 64: `StrategyAllocation.SharesAddUpIff`, `CanTieIff`.
- The error rate "over the window" (`agent/src/metrics.ts:68`) divides by all operations ever recorded:
  `Metrics.LifetimeCountHidesErrorsIff`.
- A WhatsApp user whose code is dead is told to send "hi" for a new one (`whatsapp/src/otpService.ts:39`), which does
  not work until the session times out: `OnboardingRuns.DeadCodeIsADeadEnd`. A user who returns after a timeout and
  signs in again gets another wallet in place of the one on file: `OnboardingRuns.ReturningUserGetsAnotherWallet`.

## Model

| member | source | states |
|---|---|---|
| RecoveryRuns.EffectsAtMostOnce | agent/src/serviceRecovery.ts:418-492 | over any sequence of runs, each crashing after any of its awaited writes, every idempotency key takes financial effect at most once, if the confirmed map lists what has landed |
| RecoveryRuns.CheckpointNeverSkipsAnEvent | agent/src/serviceRecovery.ts:361-416 | over any sequence of runs, from the ledger the stored checkpoint, or else the restored one, names (or from nothing), the ledger reached never decreases and every chain event between the first ledger and the one reached is indexed exactly once |
| RecoveryRuns.CheckpointMovesIff | agent/src/serviceRecovery.ts:528-603 | the stored checkpoint moves only when a recovered run completes, and then to the chain's latest ledger |
| RecoveryRuns.RecoveredIff | agent/src/serviceRecovery.ts:346-528 | exactly which network, stored or restored checkpoint, ledgers, queue and totals let a run pass the gate |
| RecoveryRuns.ReportPartitionsJobs | agent/src/serviceRecovery.ts:542-685 | each pending job is in exactly one of duplicates, executed and blocked; a blocked run executes none, a recovered run blocks none |
| RecoveryRuns.RunEffectCount | agent/src/serviceRecovery.ts:588-601 | a recovered run executes each fresh key exactly once and nothing else; a blocked run executes nothing |
| RecoveryRuns.RerunExecutesNothing | agent/src/serviceRecovery.ts:444-458 | after a recovered run, another run on the same jobs executes nothing, whatever it reads |
| RecoveryRuns.ProcessedAfterRun | agent/src/serviceRecovery.ts:451-592 | exactly which keys Redis holds as processed after a run |
| RecoveryRuns.ProcessedKeyStaysUnexecuted | agent/src/serviceRecovery.ts:444-458 | over any sequence of runs a key Redis remembers gains no further effect |
| RecoveryRuns.BlockedRunLosesKeyIff | agent/src/serviceRecovery.ts:449-458 | a blocked run buries a fresh key exactly when the batch also holds a duplicate of it |
| RecoveryCrashes.CrashBeforeRecordingRepeatsIff | agent/src/serviceRecovery.ts:590-594 | for any queue and any ready job: a crash right after its action lands makes the same run repeat it, exactly when no copy of its key was set aside and its transaction hash was not recorded |
| RecoveryCrashes.CrashBuriesKeyIff | agent/src/serviceRecovery.ts:449-601 | a run that stops anywhere past its deduplication buries a fresh key exactly when the batch holds a duplicate of it and its own copy has not landed |
| RecoveryCrashes.AfterCrashPastGate | agent/src/serviceRecovery.ts:590-601 | exactly which actions have landed, and which keys Redis remembers, after a crash anywhere in the execute loop |
| RecoveryRuns.NegativeCheckpointSkipsBackfill | agent/src/serviceRecovery.ts:383-415 | from a negative checkpoint a run recovers without indexing any event |
| RecoveryRuns.NoJobGapsIff | agent/src/serviceRecovery.ts:431-492 | deduplication reports no gap exactly when every job is well formed and every in-flight one is accounted for |
| RecoveryRuns.ReadyIsFreshAndDistinct | agent/src/serviceRecovery.ts:444-491 | the ready list holds fresh jobs only, and each key once |
| RecoveryOutcomes.NoCheckpointBlocks | agent/src/serviceRecovery.ts:361-416 | with neither a stored nor a restored checkpoint a run reports missing ledger events, executes nothing, indexes nothing and leaves the checkpoint |
| RecoveryOutcomes.ReportFigures | agent/src/serviceRecovery.ts:361-685 | the previous ledger is the stored checkpoint whatever the backup holds, and the restored one if none is stored; the other figures of the report |
| RecoveryOutcomes.RunGapsIff | agent/src/serviceRecovery.ts:346-526 | exactly when each gap that concerns no single job is reported |
| RecoveryOutcomes.JobPassesIff | agent/src/serviceRecovery.ts:244-298 | a job gets no gap exactly when each of its fields is right, told on the fields |
| RecoveryOutcomes.RecoversInPlainTerms | agent/src/serviceRecovery.ts:346-528 | a run recovers exactly when the network is right, a nonzero checkpoint is stored or restored and not past the chain, no ledger behind it is missing, every job is accounted for and the totals agree |
| RecoveryOutcomes.JobAfterRun | agent/src/serviceRecovery.ts:426-601 | what a run makes of each job, from the stores and the fields alone: its final status and transaction hash |
| RecoveryOutcomes.JobIsReportedAs | agent/src/serviceRecovery.ts:426-685 | which of the three lists of the report a job is in, and with which key, hash and amount as executed |
| RecoveryOutcomes.ConfirmedDuplicateIsRecorded | agent/src/serviceRecovery.ts:448-458 | a duplicate confirmed on chain and unknown to the database is recorded there with the chain's hash |
| RecoveryOutcomes.ExecutedJobIsRecorded | agent/src/serviceRecovery.ts:588-601 | a recovered run executes every fresh job and records it in Redis and in the database |
| RecoveryModel.ValidateQueuedTransaction | agent/src/serviceRecovery.ts:244-298 | a job gets no gap exactly when its network, contract, role, actor, asset and amount are all right; a gap is critical, names the job, and is of the kind of the first group that fails |
| RecoveryOrchestrator.ServiceRecoveryOrchestrator.RunRecovery | agent/src/serviceRecovery.ts:326-685 | the imperative run performs exactly the ordered list of writes the lemmas reason about, and returns exactly the report |
| RecoveryOrchestrator.ServiceRecoveryOrchestrator.RestoreAndBackfill | agent/src/serviceRecovery.ts:346-416 | phases 1 and 2: a stored checkpoint counts before a restored one, with neither the ledger is 0, a gap is reported and nothing is indexed; the gaps found and the events newly indexed |
| RecoveryOrchestrator.ServiceRecoveryOrchestrator.DeduplicateQueue | agent/src/serviceRecovery.ts:426-492 | the deduplication loop fills the four lists, and writes to the stores, as the fold over the pending jobs does |
| RecoveryOrchestrator.ServiceRecoveryOrchestrator.PassGate | agent/src/serviceRecovery.ts:528-603 | with gaps every ready job is blocked and nothing executed; without, all are executed and then the checkpoint saved |
| RecoveryOrchestrator.RedisQueue.MarkJobStatus | agent/src/serviceRecovery.ts:838-844 | only the first job with the id changes, and an empty hash leaves the old one |
| RecoveryOrchestrator.RecoveryDatabase.InsertIndexedEvent | agent/src/serviceRecovery.ts:861-870 | an event is indexed exactly when its id is new, and the answer says so |
| Failover.LowestPromotedStaysPrimary | agent/src/failover.ts:123-148 | in any interleaving of loads, saves and heartbeats, the lowest id that ever promoted is primary, unless the startup record names a lower one |
| Failover.TieBreaksAlwaysLeaveAPrimaryIff | agent/src/failover.ts:123-217 | from startup every run has a primary once somebody promoted, exactly when the record found names nobody below a manager |
| Failover.LowerRecordCanDeposeTheOnlyPrimary | agent/src/failover.ts:123-138 | for any manager above the startup record, a run that leaves nobody primary |
| Failover.AtMostOnePrimary | agent/src/failover.ts:123-148 | with atomic checks, and every primary's last heartbeat at most the TTL old, any primary is the one the lease names, in every run |
| Failover.OneRoundElectsOnePrimary | agent/src/failover.ts:123-148 | from any reachable state, writes in flight or not, one round of checks in ascending id order leaves exactly one primary: the lowest that promoted while the record stays within the TTL, the lowest manager, with its own record saved, once there is none or it is older; unless the startup record names a lower id |
| Failover.DeadPrimaryIsReplacedIff | agent/src/failover.ts:140-148 | a standby's check replaces a dead primary, saving its own record, exactly when more than the TTL has passed since the record |
| Failover.StandbyTakesOverIff | agent/src/failover.ts:140-148 | a standby that reads no record, or one older than the TTL, becomes primary and saves its own; within the TTL it stays standby and saves nothing |
| Failover.PrimaryStepsDownIff | agent/src/failover.ts:123-138 | a primary steps down, saving nothing, exactly when it reads a lower id, and otherwise saves its next heartbeat |
| Failover.AtomicCheckIsThreeSteps | agent/src/failover.ts:123-148 | an atomic check is a load, its resumption and the landing of its save in the interleaved system |
| Failover.AcquireGuardUnreachable | agent/src/failover.ts:193-206 | the early return in lease acquisition never fires: its callers saw the lease stale |
| Failover.BootstrapIsACheckWhileStandby | agent/src/failover.ts:103-116 | bootstrapping a standby decides as a check does |
| Failover.FailoverManager.CheckAndFailover | agent/src/failover.ts:123-148 | the new fields, the outcome and the record saved, in each of the four cases |
| Failover.FailoverManager.Bootstrap | agent/src/failover.ts:103-116 | primary with its own record when there is none or it is older than the TTL, and otherwise standby with nothing saved |
| Failover.FailoverManager.AcquireLease | agent/src/failover.ts:193-217 | nothing happens within the TTL of another's record; otherwise primary, with the first beat saved |
| Failover.FailoverManager.Beat | agent/src/failover.ts:75-87 | a heartbeat fails without effect on a standby, and otherwise writes the next sequence number |
| AccountSequence.ArrivalOrderAndExclusion | agent/src/accountSequence.ts:13-40 | in any interleaving, callers of one account in one process get in one at a time and in arrival order |
| AccountSequence.MapEntryIff | agent/src/accountSequence.ts:18-39 | an account has a map entry exactly while somebody holds or waits, and it is the latest caller |
| AccountSequence.FirstLiveTicketCanMove | agent/src/accountSequence.ts:23-40 | the first live caller of an account is never stuck behind another one |
| AccountSequence.DistributedExclusion | agent/src/accountSequence.ts:42-60 | across processes at most one caller of an account runs within its lock TTL |
| AccountSequence.OthersNeverTakeTheToken | agent/src/accountSequence.ts:42-60 | no step of anybody else, lost replies included, removes or replaces the token of a caller within its TTL |
| AccountSequence.OverrunAdmitsAnotherIff | agent/src/accountSequence.ts:42-60 | another process can get in beside a running operation exactly when its lease has run out |
| AccountSequence.ReleaseFreesTheAccount | agent/src/accountSequence.ts:27-35 | a release that reaches Redis within the lease leaves no token of the account, and any SET already sent for it is granted at once |
| AccountSequence.ReleaseLeavesTokensIff | agent/src/accountSequence.ts:27-35 | a release changes the tokens exactly when it reaches Redis within the caller's lease, and never those of other accounts |
| AccountSequence.LostReleaseHoldsUntilExpiry | agent/src/accountSequence.ts:27-60 | a token whose release was lost stays until it expires, whatever anybody does |
| AccountSequence.AccountLocks.Begin | agent/src/accountSequence.ts:18-21 | a call queues behind the current map entry and becomes the new one |
| AccountSequence.AccountLocks.AwaitSet | agent/src/accountSequence.ts:46-57 | a SET that lands takes the token if nobody's is live, and otherwise leads to another turn |
| AccountSequence.AccountLocks.GiveBackToken | agent/src/accountSequence.ts:27-35 | within the lease the account is left without a token if the release reaches Redis; past it, or if it does not, every token stays |
| AccountSequence.AccountLocks.ResolvePromise | agent/src/accountSequence.ts:36-39 | releasing drops the map entry only if it is still the caller's |
| EventListener.NoEventIsSkipped | agent/src/eventListener.ts:64-138 | however polls succeed, fail and overlap, every event between the first ledger and the start ledger was handed over exactly if some topic holds "deposit" or "withdraw" at some offset, and has exactly one row, of the kind its topics say, exactly if one of its inserts succeeded |
| EventListener.NothingBeforeTheStartIsHanded | agent/src/eventListener.ts:48-59 | nothing before the ledger at startup is ever handed over |
| EventListener.StartLedgerNeverDecreases | agent/src/eventListener.ts:127-127 | the scan never loses ground |
| EventListener.AdvanceIsNextLedgerAfterWindow | agent/src/eventCursor.ts:45-52 | the listener's advance equals the cursor module's on the scanned window |
| EventListener.WindowWithoutLatestCoversItsEvents | agent/src/eventCursor.ts:45-52 | without a usable latest ledger the next window starts right after the last event of this one, or where this one did |
| EventListener.WantedIdsIff | agent/src/eventListener.ts:80-110 | a scan hands over exactly the events of its stretch with a topic that holds "deposit" or "withdraw" at some offset |
| EventListener.RowsAfterIff | agent/src/eventListener.ts:80-151 | a scan writes a row for exactly the events of its stretch whose insert the database took: a deposit if some topic holds that word, else a withdrawal |
| EventListener.ClassifyIff | agent/src/eventListener.ts:84-92 | the kind of an event, on the positions of the two words in its topics |
| EventListener.AcceptedIff | agent/src/eventListener.ts:140-151 | which events some insert of the run stored |
| EventListener.FinishedPollAdvances | agent/src/eventListener.ts:64-128 | a poll that finishes, whatever runs in between, moves the start past every ledger visible when it began |
| EventListener.Listener.ScanPages | agent/src/eventListener.ts:67-124 | the paging loop ends, and has then handed over everything visible from its start on |
| EventListener.Listener.Poll | agent/src/eventListener.ts:64-138 | a poll that succeeds advances past the latest ledger it saw; one that fails leaves the start ledger alone |
| EventListener.Listener.LogEventToDb | agent/src/eventListener.ts:140-151 | an insert adds a row, of the kind the topics say, exactly when the id is new, and a database error is swallowed |
| OtpVerification.EachSuccessUsesUpOneCode | agent/src/authService.ts:120-222 | in any interleaving of Redis commands each success used up a code of its own, equal to the one submitted |
| OtpVerification.AtMostMaxAttemptsPerCode | agent/src/authService.ts:155-200 | with uninterrupted verifications no code is compared more than five times, as the counter outlives the code |
| OtpVerification.SuccessConsumesTheCode | agent/src/authService.ts:155-222 | exactly when a verification succeeds; after it every further one is told the code is consumed |
| OtpVerification.ComparisonsPerCodeIff | agent/src/authService.ts:131-220 | the exact bound on the comparisons with one code in any interleaving, from the verifications in flight when it is written |
| OtpVerification.AttemptLimitHoldsIff | agent/src/authService.ts:163-220 | the limit of five holds for a code exactly when no uncounted verification is in flight at its writing |
| OtpVerification.OverlappingVerificationBreaksTheLimit | agent/src/authService.ts:135-174 | a run from the empty store with six comparisons with the only code written |
| OtpVerification.OneIssuerPerCooldown | agent/src/authService.ts:121-127 | an issuer is let in exactly when no cooldown runs, and nobody else within thirty seconds of it, in any interleaving |
| OtpVerification.VerificationIsItsCommands | agent/src/authService.ts:155-222 | an uninterrupted verification is its own Redis commands with nothing in between |
| OtpVerification.OtpStore.IssueOtp | agent/src/authService.ts:120-142 | exactly when no cooldown runs: a code for five minutes, a fresh counter and a cooldown of thirty seconds |
| OtpVerification.OtpStore.VerifyAndConsumeOtp | agent/src/authService.ts:155-222 | the result, the counter and the code after an uninterrupted verification, from the counter, the code and the clock |
| Leases.LeaseIsExclusive | agent/src/scheduler.ts:130-156 | once a replica holds a key until some instant, no other one acquires, renews or releases it before then, unless the owner gives it up, in either store |
| Leases.StoresAgreeIff | agent/src/db.ts:60-93 | the in-memory and SQL stores answer an acquisition alike except at the exact instant another's lease expires |
| Leases.ExpiredLeaseIsFree | agent/src/db.ts:60-78 | once a lease has expired anybody's acquisition succeeds, in either store |
| Leases.InMemoryLeaseStore.Acquire | agent/src/scheduler.ts:133-141 | the map and answer after an acquisition |
| Leases.InMemoryLeaseStore.Renew | agent/src/scheduler.ts:143-148 | only the owner renews |
| Leases.InMemoryLeaseStore.Release | agent/src/scheduler.ts:150-155 | only the owner releases |
| Leases.LeaseTable.AcquireLease | agent/src/db.ts:60-78 | the row and answer after the conditional upsert |
| Leases.LeaseTable.ReleaseLease | agent/src/db.ts:84-93 | only the owner's row is deleted |
| Scheduler.SchedulerKeepsItsBooks | agent/src/scheduler.ts:231-249 | in every run the queue is sorted, every enqueued job is exactly once queued, running or in the history, the failure count is the failing suffix, and the breaker is set exactly at the threshold |
| Scheduler.QueueServesByTrigger | agent/src/scheduler.ts:185-249 | in every run spikes stand before all other queued jobs, TVL jobs before manual and scheduled ones, manual jobs before scheduled ones; within one trigger by due time, and then by age |
| Scheduler.TickExecutesByTrigger | agent/src/scheduler.ts:284-333 | after any run, a tick executes in that order |
| Scheduler.BreakerIff | agent/src/scheduler.ts:463-486 | in every run the breaker is set exactly when the last max(1, threshold) executions that were not skipped for gas all failed |
| Scheduler.StatsCount | agent/src/scheduler.ts:503-531 | each figure of the dashboard counts the executions its name says |
| Scheduler.NothingRunsAfterTheBreaker | agent/src/scheduler.ts:284-333 | no job runs after the breaker is set |
| Scheduler.StatsAddUp | agent/src/scheduler.ts:503-531 | executed is succeeded plus failed plus gas-skipped; enqueued is executed plus queued plus running |
| Scheduler.DrainRunsAPrefix | agent/src/scheduler.ts:323-333 | a tick records exactly the executions of a prefix of the queue, in order, and stops at the end, at the breaker or at a head that is not due |
| Scheduler.HeadBlocksTheQueueIff | agent/src/scheduler.ts:323-333 | a tick runs nothing exactly when the queue is empty, the breaker is set or the head is not due, whatever stands behind it |
| Scheduler.TickRespectsTheLease | agent/src/scheduler.ts:339-381 | while another replica's lease is unexpired a tick emits nothing and leaves the lease alone |
| Scheduler.EmitsIff | agent/src/scheduler.ts:287-305 | a tick emits the scheduled job exactly when no breaker is set, none is queued, one, four or twenty-four hours have passed since the last run, and nobody else's lease is unexpired |
| Scheduler.CompletedRunLeavesItToTheOwnClock | agent/src/scheduler.ts:339-400 | after an emitting tick of any replica the interval is free exactly when its scheduled job ran; any other replica then emits exactly by its own guard |
| Scheduler.LeaseExcludesNobody | agent/src/scheduler.ts:280-333 | in a fleet of any size whose ticks finish the jobs they emit, every replica does what it would do with the lease store to itself |
| Scheduler.EveryReplicaRunsTheInterval | agent/src/scheduler.ts:280-305 | any number of fresh replicas, ticking once each, all run the interval |
| Scheduler.InsertKeepsOrder | agent/src/scheduler.ts:231-249 | enqueueing puts the job behind all that it is not strictly ahead of, keeps the queue sorted and the others in their order |
| Scheduler.RebalanceScheduler.RunTick | agent/src/scheduler.ts:284-333 | the fields and the lease table after a tick are those of the specification |
| Scheduler.RebalanceScheduler.RunJob | agent/src/scheduler.ts:426-500 | history, failure count, breaker, last run and lease after a job; only a scheduled job is skipped for gas, when the price is above the limit |
| Scheduler.RebalanceScheduler.EnqueueJob | agent/src/scheduler.ts:231-249 | the scan and splice is the stable sort's place for the new job, and keeps the order by trigger, due time and age |
| Scheduler.RebalanceScheduler.AcquireLease | agent/src/scheduler.ts:339-381 | renew what is believed held, otherwise acquire; the interval's key is ours exactly when nobody else's lease is unexpired |
| YieldRanking.DecisionIndependentOfCompletionOrder | agent/src/yieldCheckJob.ts:543-572 | the whole decision is the same for every order in which the APY fetches complete, unless two protocols tie at the top |
| YieldRanking.TargetIndependentOfOrderIff | agent/src/yieldComparison.ts:37-54 | the target is independent of the order of the observations exactly when no two top scores tie |
| YieldRanking.BestIsFirstTop | agent/src/yieldComparison.ts:37-54 | the best opportunity is the first to arrive among the top scores |
| YieldRanking.SortedSorts | agent/src/yieldComparison.ts:37-54 | the ranking is a permutation of the observations by descending score |
| YieldRanking.RebalanceIsJustified | agent/src/yieldCheckJob.ts:302-447 | a rebalance goes to a usable, top-scoring observation that beats the current one by the threshold, within the slippage, after the cooldown |
| YieldRanking.RebalanceIff | agent/src/yieldCheckJob.ts:302-447 | a check moves the funds exactly when the cooldown is over and the first top score is another protocol, beats the current one by the threshold and leaves a positive least output |
| YieldRanking.CooldownIff | agent/src/yieldCheckJob.ts:302-380 | exactly when a check reports the cooldown, and the ledgers left of it |
| YieldRanking.ScoreIsNearest | agent/src/yieldComparison.ts:32-54 | a score is the nearest hundredth of the excess yield per volatility, less the share lost to risk |
| YieldRanking.CollectMembers | agent/src/yieldCheckJob.ts:585-598 | the observations collected are exactly those a fetch for their own protocol gave, in range and fresh enough |
| PendingRebalance.NeverSendsOnTopOfAnUncertainSend | agent/src/yieldCheckJob.ts:716-784 | in every run of submissions and reconciliations, nothing is sent while an earlier sent hash has not been seen as succeeded, failed or rejected |
| PendingRebalance.AcceptedSendLosesGuardIff | agent/src/yieldCheckJob.ts:755-784 | another transaction can be sent over an accepted one exactly when the acknowledgement names another hash and that is not empty or some poll shows a final status |
| PendingRebalance.UncertainHashBlocksForever | agent/src/yieldCheckJob.ts:718-727 | a pending hash without a final status blocks every later submission |
| PendingRebalance.PollsConfirmIff | agent/src/yieldCheckJob.ts:766-784 | a send is confirmed exactly when one of the thirty polls shows success, whatever the polls before it showed |
| PendingRebalance.RebalanceHooks.SubmitRebalance | agent/src/yieldCheckJob.ts:700-785 | the pending hash, the sends and the result after a submission, branch by branch, failures and throws included |
| PendingRebalance.RebalanceHooks.AwaitConfirmation | agent/src/yieldCheckJob.ts:766-784 | sent exactly if one of thirty polls shows success; the hash stays pending exactly if none shows a final status |
| PendingRebalance.RebalanceHooks.ReconcileRebalance | agent/src/yieldCheckJob.ts:786-798 | the pending hash is cleared by a final status only |
| RpcBreaker.BreakerCountsRecentFailures | agent/src/rpcClient.ts:100-131 | with overlapping calls and a forward clock, the failure list is all failures since the last success in the last minute; closed means fewer than three; an opening time is kept exactly while not closed |
| RpcBreaker.OpensIff | agent/src/rpcClient.ts:114-131 | a failure opens the circuit exactly when it is at least the third in the window |
| RpcBreaker.OpenCircuitRefuses | agent/src/rpcClient.ts:133-146 | an open circuit refuses every call for thirty seconds, unless an earlier one succeeds |
| RpcBreaker.HalfOpenNeverReopens | agent/src/rpcClient.ts:133-146 | a half-open circuit is left by a success only; until then every call passes |
| RpcBreaker.SubmissionsAreNotRepeated | agent/src/rpcClient.ts:226-251 | a call that did not opt in is made at most once and never on the fallback |
| RpcBreaker.PercentilesAreSamplesInOrder | agent/src/rpcClient.ts:174-186 | p50, p95 and p99 are samples, in order, with at most that share of the others below and more than it at or below |
| RpcBreaker.RpcClient.RpcCall | agent/src/rpcClient.ts:226-251 | the primary is asked exactly if its circuit is not open or has been for thirty seconds, the fallback exactly if there is one, the caller opted in and the primary gave no answer; both breakers afterwards |
| RpcBreaker.Endpoint.RecordFailure | agent/src/rpcClient.ts:114-131 | the failures kept are those of the last minute and this one; the third opens a closed circuit |
| RpcBreaker.Endpoint.IsAvailable | agent/src/rpcClient.ts:133-146 | the answer, and the move to half-open, thirty seconds after opening |
| RpcBreaker.LatencyLog.RecordLatency | agent/src/rpcClient.ts:162-171 | the log is always the last thousand samples in order |
| RpcBreaker.LatencyLog.GetRpcLatencyPercentiles | agent/src/rpcClient.ts:174-186 | the percentiles of the samples of the last five minutes for the endpoint |
| RpcBreaker.DurationsCount | agent/src/rpcClient.ts:178-186 | the samples taken are exactly as many as are recent enough and of the endpoint asked for |
| RateLimiter.AtMostTwoWindowsWorth | agent/src/rateLimiter.ts:158-173 | no closed interval of a window's length sees more than 2 * max - 1 messages of a phone accepted |
| RateLimiter.TheBoundIsReached | agent/src/rateLimiter.ts:158-173 | for every positive maximum some run reaches that bound |
| RateLimiter.RemainingIsExactIff | agent/src/rateLimiter.ts:179-188 | the reported quota is the number of further immediate messages accepted, exactly when the maximum is positive or a window is running |
| RateLimiter.PhonesAreIndependent | whatsapp/src/webhook.ts:81-98 | what a phone gets through depends on its own messages only |
| RateLimiter.WebhookRateLimiter.CheckWebhookRateLimit | agent/src/rateLimiter.ts:158-173 | the entry and answer after a message: a window of a minute, and so many messages in it |
| RateLimiter.WebhookRateLimiter.GetWebhookRateLimitRemaining | agent/src/rateLimiter.ts:179-188 | the quota reported |
| StrategyAllocation.SharesAddUpIff | agent/src/strategyAggregator.ts:101-125 | the two targets add up to 10000, and to 10001 exactly on a half tie |
| StrategyAllocation.CanTieIff | agent/src/strategyAggregator.ts:101-125 | some mix of n depositors ties exactly when n is a positive multiple of 64 |
| StrategyAllocation.SharesInRange | agent/src/strategyAggregator.ts:81-85 | blend stays in [2000, 10000] and dex in [0, 8000] |
| StrategyAllocation.TargetIsTheAverage | agent/src/strategyAggregator.ts:81-125 | each target is the average over the depositors to the nearest basis point, with 100, 60 and 20 % for Blend; 60 to 40 with nobody |
| StrategyAllocation.EveryDepositorCountsOnce | agent/src/strategyAggregator.ts:158-176 | a stated preference counts as stated, and everybody else as balanced |
| StrategyAllocation.PercentagesNearlyAddUp | agent/src/strategyAggregator.ts:178-179 | each percentage is its own strategy's share to the nearest hundredth, and together they add up to the whole within one |
| StrategyAllocation.AggregateStrategyPreferences | agent/src/strategyAggregator.ts:148-191 | counting in batches of any positive size gives the distribution of a single pass, every depositor once, failures as balanced |
| Metrics.SharesNearlyAddUp | agent/src/metrics.ts:150-156 | the shares of n venues with a positive total add up to the whole within n / 2 basis points |
| Metrics.HourlyAddsUp | agent/src/metrics.ts:307-332 | one bucket per hour, oldest first, adding up to the overall deposits and withdrawals |
| Metrics.BucketHoldsItsHour | agent/src/metrics.ts:307-332 | each bucket starts on the hour and holds what flowed each way in the hour from then on |
| Metrics.DropIsAShare | agent/src/metrics.ts:143-147 | after any nonnegative observations the drop from the peak is within [0, 10000], zero at the peak and full at zero |
| Metrics.FailingSuffixIsExact | agent/src/metrics.ts:298-305 | the count of consecutive failures is the length of the failing suffix |
| Metrics.LifetimeCountHidesErrorsIff | agent/src/metrics.ts:210-213 | the error rate is a proper share, and vanishes exactly once lifetime operations exceed twenty thousand per windowed error |
| Metrics.MetricsEngine.BuildUserTrends | agent/src/metrics.ts:307-332 | the trends built from the flows' buckets: net flow and distinct users |
| Metrics.MetricsEngine.BucketFlows | agent/src/metrics.ts:314-321 | one pass leaves a bucket for every hour with flows, and what flowed in it |
| Metrics.MetricsEngine.CountConsecutiveFailures | agent/src/metrics.ts:298-305 | the backward loop counts the failures after the last success |
| Metrics.MetricsEngine.RecordAllocations | agent/src/metrics.ts:150-156 | every venue's share of the total to the nearest basis point, and zero without a total |
| Metrics.MetricsEngine.RecordTvl | agent/src/metrics.ts:143-147 | the last and the highest observation are kept |
| Metrics.MetricsEngine.RecordFlow | agent/src/metrics.ts:162-165 | the flow history is the last ten thousand flows in order |
| Metrics.MetricsEngine.RecordError | agent/src/metrics.ts:168-171 | the error history is the last ten thousand errors in order |
| Metrics.MetricsEngine.RecordRebalance | agent/src/metrics.ts:158-160 | the rebalance history is the last ten thousand rebalances in order |
| Metrics.Push | agent/src/metrics.ts:334-337 | pushing keeps the last ten thousand |
| OnboardingRuns.WalletsNeedCodes | whatsapp/src/webhook.ts:203-291 | in every run wallets created <= codes accepted <= codes issued, for each phone |
| OnboardingRuns.AcceptedCodesAreLive | whatsapp/src/otpService.ts:18-60 | every acceptance is of the code last issued, within five minutes, once, and never after three wrong tries |
| OnboardingRuns.VerifiedHasWallet | whatsapp/src/webhook.ts:293-303 | a verified session has a wallet, so the stale-session branch is never taken |
| OnboardingRuns.IdleSessionExecutesNothing | whatsapp/src/stateManager.ts:24-47 | a session idle for over fifteen minutes executes no intent, not even a queued one, before a new code is accepted |
| OnboardingRuns.DeadCodeIsADeadEnd | whatsapp/src/webhook.ts:236-262 | once its code is gone, a phone that keeps writing gets no new code whatever it sends |
| OnboardingRuns.WalletReplacedIff | whatsapp/src/walletService.ts:20-35 | a step gives a phone another wallet exactly when it agrees again in a session awaiting its consent |
| OnboardingRuns.ReturningUserGetsAnotherWallet | whatsapp/src/webhook.ts:264-291 | from any state, a user idle past the timeout who signs in again gets another wallet in place of the one on file, and nobody else's changes |
| OnboardingRuns.OthersLeaveItAlone | whatsapp/src/webhook.ts:203-330 | what a phone has on file does not depend on other phones |
| OnboardingRuns.LimitersAgree | whatsapp/src/stateManager.ts:62-74 | used on its own, the session's limiter lets through exactly the messages that the webhook's fixed window lets through, over any messages of any phones |
| Onboarding.MessageMovesThePhoneOn | whatsapp/src/webhook.ts:203-330 | what a message does to the phone's state and wallet: greeting, right code, consent, declining, and nothing else |
| Onboarding.DigitsOfParts | whatsapp/src/webhook.ts:236-262 | only the digits of a message count as a code, in their order |
| Onboarding.Webhook.HandleMessage | whatsapp/src/webhook.ts:203-330 | sessions, codes, wallets and facts after a message are those of the specification |
| Onboarding.Webhook.ProcessJob | whatsapp/src/webhook.ts:336-348 | an intent is executed exactly when the session is verified, active within fifteen minutes, and a wallet exists |
| Onboarding.OtpService.VerifyOTP | whatsapp/src/otpService.ts:35-60 | the record and outcome after a try: in time, after fewer than three wrong ones, and equal |
| Onboarding.OtpService.GenerateOTP | whatsapp/src/otpService.ts:18-29 | a new record with no tries, for five minutes, replaces the old one |
| Onboarding.StateManager.GetSession | whatsapp/src/stateManager.ts:24-47 | a look creates a session, starts it over after fifteen idle minutes, or refreshes it |
| Onboarding.StateManager.CheckRateLimit | whatsapp/src/stateManager.ts:62-74 | ten messages a minute: the counter and answer after a message |

## Left out

- Timings, RTO budget, `onWorkerResume` and the state backup's save in a recovery run: they write nothing the run reads back.
- The hashing behind idempotency keys: keys are taken as given.
- `beat` and `save` failures, the `onPromote` and `onDemote` hooks, and voluntary step-downs in the failover system.
- Event parsing and XDR decoding: an event comes with its topics and ledger.
- The unreadable-JSON branch of code verification, the constant-time comparison and refresh-token rotation.
- Scheduler alerts, missed-run checks, average gas and APY statistics, and changing the interval at run time.
- The overlap of a timed-out rebalance submission with the next check: submissions are taken one at a time.
- PendingRebalance.NeverSendsOnTopOfAnUncertainSend: one process; the pending hash does not survive a restart, and the model has no restart.
- NaN and infinite APYs: observations are rationals, so the branch for no usable ranked data has no counterpart.
- The network verification inside a timed RPC call: a mismatch is one of the ways an attempt fails.
- RpcBreaker.RpcClient.RpcCall: one call with no other in flight; overlapping calls are the event runs of the same breaker functions.
- A batch size of zero in strategy aggregation: the source's loop does not end.
- Uptime, gas and heartbeat figures of the metrics snapshot: sums and filters of the same histories.
- The webhook's own rate limit in the onboarding runs: it only drops messages, and every subsequence of messages is a run.
- Text parsing of intents, deposits and withdrawals, the queue's deduplication by message id, and Twilio itself.
- HTTP routers, middleware, logging, database schemas, cryptography and key storage.
- `transactionQueue.ts`, `reconcile.ts`, `harvestJob.ts`, `rebalanceRecovery.ts` and `stateBackup.ts`: lookups and I/O without a protocol of their own.
