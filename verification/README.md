# WalWatch: a Dafny model of its engines

WalWatch renews storage before it expires. This project models the parts of it that are
hard to get right and proves what they keep over whole runs: the database-backed renewal queue with
its crash recovery, the worker pool, the multi-instance scheduler, the circuit breakers and RPC
pools, keyset pagination, the rate limiter, the cost engine, policy resolution, saga compensation,
the background job queue and the notification engine.

Code that works step by step is a class or a method with its loops, proved against a function of the
old state; code that runs concurrently is a state machine whose steps are the stretches between two
awaits, and the theorems are about every run of it. Database tables are sequences or maps of rows,
`Date.now()` and `NOW()` are parameters, and foreign code (the chain, RPC endpoints, delivery
channels, job handlers) ends each call in any way it likes.

| file | models |
|---|---|
| `Common.dfy` | options, results, division with remainder |
| `StateMachines.dfy` | `validateTransition` and three registered machines |
| `RenewalModel.dfy` | rows, worker and steps of the renewal queue |
| `RenewalTally.dfy` | row and event counts of one blob under every update |
| `RenewalSafety.dfy` | the invariants and their preservation by each step |
| `RenewalTheorems.dfy` | at-most-once renewal, open jobs of a renewing blob, stranding |
| `RenewalHistory.dfy` | terminal rows, executor calls per row, status writes against the machine |
| `RenewalRetries.dfy` | what becomes of a `retrying` row |
| `RenewalAttempts.dfy` | the catch block and the limit on retries |
| `RenewalOutcomes.dfy` | what every other step leaves in the tables, case by case |
| `RenewalBlobs.dfy` | blob moves of the queue against the blob machine |
| `RenewalWitnesses.dfy` | concrete runs that show which side conditions are needed, and what ends a batch |
| `RenewalAttachment.dfy`, `RenewalExceptions.dfy` | runs in which a `retrying` row is executed again, and in which each unregistered status write occurs |
| `RenewalQueue.dfy` | the queue as imperative code over the tables, tied to the steps |
| `MapConcurrent.dfy` | `mapConcurrent` under every interleaving |
| `SchedulerProtocol.dfy` | lock, guard and compare-and-set of `executeSchedule` |
| `CronWindows.dfy` | cron intervals, missed windows, catch-up |
| `CircuitBreakers.dfy` | both breakers, sequential and overlapping calls |
| `SuiPools.dfy` | both RPC pools |
| `CursorPagination.dfy` | keyset traversal, with and without concurrent writes |
| `RateLimit.dfy` | the in-memory fixed-window limiter and its sweeper |
| `CostEngine.dfy` | budget check, ledger, sliding-window spending safety, budget windows |
| `PolicyEngine.dfy` | policy resolution |
| `Saga.dfy` | `executeWithCompensation` |
| `JobQueue.dfy` | job queue, dead letters and worker |
| `NotificationEngine.dfy` | flapping, deduplication, retries, escalation, alert status |

The renewal queue is modelled for both schemas the repository contains: migration
api/src/db/migrations/0022_unique_active_renewal.sql makes the blob of an `in_progress` row unique,
while api/src/db/schema.ts:407-432, which scripts/deploy.sh:261 pushes, declares no such index. `State.unique`
says which one is in place; results hold for both unless they say otherwise. The foreign key of
api/src/db/schema.ts:410 holds in both.

## Where the code and its documentation part

The model follows the code. In these places the code does not do what its comments or names promise;
the members named in brackets say exactly what it does.

- No worker crash is supposed to need manual cleanup (keeper/src/index.ts:239-241). A crash between
  the two success updates leaves the blob `renewing` with no open job. That crash and no other step
  does it (`BlobSoundExactlyUnlessStranded`, `CrashStrandsExactly`), it can happen
  (`StrandingReachable`), and nothing in the queue ever repairs it (`StrandedForever`).
- An exception after the row was set to `succeeded` makes the catch block overwrite the terminal row.
  A terminal status gives way at exactly these points (`TerminalStatusChangesExactlyOnLateFailure`,
  `TerminalOverwrittenExactlyByLateFailure`). The idempotency check then no longer sees the success.
  A blob without a crash stays renewed at most once if and only if none of its executor calls takes
  effect after the effect of an earlier one was lost in this way or by the call itself throwing
  (`CrashFreeRenewedAtMostOnceExactly`, `CrashFreeRenewedAgainExactly`); it does happen (`LateFailureRenewsTwice`).
- The check-then-upsert does not see rows in progress: a blob has at most one open row throughout a
  run if and only if none is inserted beside a running or closing one (`OneOpenRowExactly`).
- A `retrying` row is not executed when it falls due: the lock accepts only `pending`, and the
  iteration passes the row over unless another row of the blob has succeeded or is in progress
  (`DueRetryPassedOverExactly`). It is executed again only after it attached to a row in progress and
  recovery then reset it as stale (`RetryingCalledOnlyAfterAttachmentAndReset`), which does happen
  (`RetryingRowCalledAgain`); with the index of migration 0022 it never is.
- An `estimated` row over budget throws and ends the batch, and blocks every row behind it for as
  long as it stays over budget (`OverBudgetEstimateBlocksQueue`). With the index an attaching row ends
  it too, and nothing else does (`BatchEndsExactly`).
- Six status writes are not edges of the registered renewal machine: no run makes any other
  (`WritesFollowMachine`), and each of the six occurs (`EveryExceptionOccurs`).
- `computeMissedWindows` says it may over-count; for step expressions it never does (`MissedNeverOvercounts`).
  Catch-up is said to go most recent first; it is published oldest first (`HandleMissedRuns`).
- In `desc` order the cursor compares ids downwards while the ORDER BY sorts them upwards
  (api/src/lib/cursor-pagination.ts:74, 87, 101): the pages are the sorted table exactly when no page
  ends on a tied row (`DescTraversalExactlyWhenBoundariesUntied`).
- A client that obeys `Retry-After` to the second is refused again exactly when the wait is a whole
  number of seconds (`RetryAfterHonouredExactlyWhenRoundedUp`).
- The advisory lock keeps sessions apart, not the overlapping calls of one. Those cannot trigger an
  execution twice (`StampsIncrease`), but can break the minimum interval (`OverlapBreaksSpacing`): it is
  kept in a run if and only if no execution was overtaken, between reading the row and claiming it, by
  another execution less than the interval before its clock (`SpacedExactlyUnlessOvertaken`), and only
  a call of the same session can do that (`OvertakenWithinSession`).
- The keeper pool never asks an open endpoint again; the breaker's timeout is never consulted
  (`OpenEndpointStaysOut`). The API pool counts its round-robin position modulo all endpoints but uses it
  modulo the available ones, so while an endpoint cools down usage is even if and only if the second
  number divides the first (`ApiUsageEvenExactly`, `ApiUsageDrifts`); the keeper pool stays even (`UsageBalanced`).
- The two breakers are meant alike and are on sequential calls (`BreakersEquivalent`). On overlapping
  calls they part exactly when a success settles while they are open, or a call comes between the
  timeouts they remember (`BreakersPartExactly`), which takes a call settling while they are open
  (`AlikeUnlessSettledOpen`). A settling call clears the probe flag of another call's probe; the flag is
  right exactly as long as this has not happened (`OneProbeExactly`), and two probes can then run at
  once (`TwoProbesPossible`).
- The queue checks spending without a policy id, so policy limits never stop it (`PolicyLimitUncheckedByQueue`).
  The sum in api/src/lib/cost-engine.ts:341 names a table alias its query does not define; the model takes the sum that is meant.
- Tag policies are ranked by a count in which a repeated tag counts twice
  (`CountIsNarrownessExactlyWithoutRepeats`).
- `attempts` of a background job is never incremented, so a failing job goes to the dead letters after
  its first attempt or never (`DeadLetteredExactlyWhenOneAttempt`), and failed jobs are never retried (`NeverQueuedAgain`).
- `partial_delivery` and `fired -> delivery_failed_final` are not in the alert machine
  (`FinalStatusOnMachineExactlyWhenDelivered`). An open alert whose channels were all
  notified within the deduplication window, as after a crash before the final status, ends as
  undeliverable even if every one of those notifications was delivered (`ProcessAlertEvent`).

## Model

| member | source | states |
|---|---|---|
| StateMachines.ValidateTransition | api/src/lib/state-machine.ts:95-130 | accepts exactly the defined edges between known states that do not leave a terminal state (unless overridden) |
| StateMachines.RenewalEdges | api/src/lib/state-machine.ts:198-213 | the renewal machine accepts exactly seven moves; no state or terminal check removes one |
| RenewalSafety.StepKeeps | keeper/src/index.ts:304-665 | every step of queue, crash, enqueue and blob change keeps the counting invariants of every blob, is accounted for in its counts of commits, losses, crashes and inserts beside, and a sound blob row stays sound exactly unless the step strands it |
| RenewalSafety.CrashKeeps | keeper/src/index.ts:549-574 | a crash breaks the blob row exactly when it comes between the two success updates of that blob while it is renewing |
| RenewalTheorems.RunKeeps | keeper/src/index.ts:245-665 | the invariants hold in every state of every run; the blob invariant until a step strands that blob |
| RenewalTheorems.CommittedCallsBounded | keeper/src/index.ts:391-436 | in every run the committed renewals of a blob are at most its recoveries, plus commits whose row did not end succeeded, plus one if a row is succeeded, plus its in-progress rows |
| RenewalTheorems.CrashFreeRenewedAtMostOnceExactly | keeper/src/index.ts:391-436 | without a crash a blob is renewed at most once if and only if no executor call of it takes effect after the effect of an earlier one was lost; lost effects trail the effects by at most one; nothing of it is recovered, and its only in-progress row is the one being executed |
| RenewalTheorems.CrashFreeRenewedAgainExactly | keeper/src/index.ts:426-656 | a call that takes effect on a blob without a crash makes it renewed twice or more if and only if an earlier effect was lost |
| RenewalTheorems.OneOpenRowPerBlob | keeper/src/db-writer.ts:47-76 | a blob has at most one waiting, retrying, running or closing row, plus one for each row inserted beside a running or closing one |
| RenewalTheorems.OneOpenRowExactly | keeper/src/db-writer.ts:47-76 | a blob has at most one such row at every state of a run if and only if the run inserts none beside a running or closing one |
| RenewalTheorems.UniqueIndexKept | api/src/db/migrations/0022_unique_active_renewal.sql:1 | with the index, no blob has two rows in progress in any run |
| RenewalTheorems.RenewingBlobHasOpenJob | keeper/src/index.ts:448-665 | until a step strands it, a renewing blob has a job in progress or retrying and no succeeded one, but between the two success updates |
| RenewalTheorems.BlobSoundExactlyUnlessStranded | keeper/src/index.ts:448-665 | in a whole run the blob row is sound at every state if and only if no step of the run strands it |
| RenewalTheorems.CrashStrandsExactly | keeper/src/index.ts:549-574 | a crash strands a sound blob if and only if it comes between the two success updates, the blob is renewing, and no attached row is left in progress |
| RenewalTheorems.StrandedForever | keeper/src/index.ts:234-273 | a stranded blob stays renewing through every later step until another component writes its row |
| RenewalHistory.TerminalRowsStay | keeper/src/index.ts:245-665 | a terminal row keeps status and blob through every later step of every run in which its own try block does not fail late |
| RenewalHistory.TerminalStatusChangesExactlyOnLateFailure | keeper/src/index.ts:552-603 | at any step of a run a terminal status of a row changes if and only if the row's try block throws there after the row was set to succeeded |
| RenewalHistory.CallsPerJobBounded | keeper/src/index.ts:426-436 | a row is executed at most once plus once per recovery of that row; a waiting row at most once per recovery |
| RenewalRetries.DueRetryPassedOverExactly | keeper/src/index.ts:391-436 | the iteration of a due retrying row changes nothing if and only if no other row of the blob has succeeded or is in progress, and it never calls the executor |
| RenewalRetries.RetryingCalledOnlyAfterAttachmentAndReset | keeper/src/index.ts:408-436 | in every run, a row that was retrying is called later only after a step that attached it and a later one that reset it as stale, and never with the index |
| RenewalAttachment.RetryingRowCalledAgain | keeper/src/index.ts:416-436 | a run without the index in which a retrying row is executed again |
| RenewalAttempts.CatchEndsExactly | keeper/src/index.ts:578-656 | at every step of a run whose catch block handles an error, the row goes into a retry if and only if the error is retryable and the attempt counter plus one is below the maximum (5 by default); otherwise it fails for good and its blob does not stay renewing |
| RenewalAttempts.RetriesBelowLimit | keeper/src/index.ts:605-628 | in every run a row that no upsert refreshes goes into a retry fewer times than it has attempts |
| RenewalHistory.WritesFollowMachine | keeper/src/index.ts:322-656 | every status write of a run is a registered edge or one of six listed exceptions, never both |
| RenewalExceptions.EveryExceptionOccurs | keeper/src/index.ts:249-603 | each of the six exceptions is written in some run |
| RenewalHistory.TerminalOverwrittenExactlyByLateFailure | keeper/src/index.ts:549-603 | the log of a run holds a write over a terminal status of a row if and only if that row's try block failed late |
| RenewalBlobs.QueueMovesOnMachine | keeper/src/index.ts:448-490 | none of the queue's blob transition checks can throw |
| RenewalBlobs.BlobsFollowMachine | keeper/src/index.ts:245-665 | in every run each step of queue, recovery, crash and enqueue moves each blob by at most one registered edge, or two by way of `renewed` |
| RenewalWitnesses.StrandingReachable | keeper/src/index.ts:552-573 | a run from an empty queue reaches a stranded blob |
| RenewalWitnesses.LateFailureRenewsTwice | keeper/src/index.ts:552-603 | a run without any crash commits two renewals of one blob |
| RenewalWitnesses.BatchEndsExactly | keeper/src/index.ts:349-424 | an iteration ends the batch if and only if it picked an over-budget estimated row or, with the index, a row that would attach |
| RenewalWitnesses.OverBudgetEstimateBlocksQueue | keeper/src/index.ts:314-373 | when such an estimated row sorts before every waiting and every recoverable row, a poll does nothing but recovery |
| RenewalQueue.RecoverEffect | keeper/src/index.ts:245-273 | recovery resets exactly the stale rows and moves back exactly the renewing blobs that own one |
| RenewalQueue.Database.ResetStaleRows | keeper/src/index.ts:249-262 | the UPDATE resets the stale rows and returns exactly their blobs |
| RenewalQueue.Database.RecoverStaleInProgressJobs | keeper/src/index.ts:245-273 | the two-phase code leaves the tables as row-by-row recovery does |
| RenewalQueue.Database.BeginNext | keeper/src/index.ts:322-389 | the straight-line iteration with early exits is the specified step |
| RenewalQueue.Database.DispatchNext | keeper/src/index.ts:391-547 | success check, attachment (which throws with the index), lock and preparations are the specified step |
| RenewalQueue.Database.ThrowCurrent | keeper/src/index.ts:578-656 | an executor call that throws is the specified step |
| RenewalQueue.Database.ConfirmCurrent | keeper/src/index.ts:549-555 | heartbeat and success of the row are the specified step |
| RenewalQueue.Database.CloseCurrent | keeper/src/index.ts:568-657 | the blob updates, or as many of them as run before a statement throws, and the catch block are the specified step |
| RenewalQueue.Database.FailJob | keeper/src/index.ts:578-656 | retry or final failure, with the attempt counter of the batch copy |
| RenewalQueue.Database.ProcessRenewalQueue | keeper/src/index.ts:304-665 | one poll: recovery, batch and loop, ending early when an iteration throws |
| RenewalQueue.Database.CreateRenewalJob | keeper/src/db-writer.ts:47-117 | updates the latest waiting row of the blob, or inserts; skips a duplicate succeeded row; writes nothing when foreign key or index refuse the row |
| RenewalQueue.PollIsRun | keeper/src/index.ts:304-665 | a poll of the imperative code is a run of the state machine, so the theorems apply to it |
| RenewalOutcomes.PollRecoversSilentRows | keeper/src/index.ts:234-273 | a poll first resets exactly the rows in progress that were silent for more than ten minutes, counting an attempt, and takes exactly their renewing blobs back to expiring |
| RenewalOutcomes.PollTakesForemostDueRows | keeper/src/index.ts:306-320 | it then takes at most twenty due rows, lowest priority number first, then unscheduled and earliest schedule, then oldest, and passes over none that should come before |
| RenewalOutcomes.PollCanAlwaysStart | keeper/src/index.ts:306-320 | whatever the tables hold, some batch satisfies these conditions, so a poll never has to stand still |
| RenewalOutcomes.IterationExactly | keeper/src/index.ts:322-547 | what an iteration leaves of row, blob and worker in each of its cases: no registration, over budget, already renewed, in progress, retrying, called, switched off by policy, no vault, no publisher |
| RenewalOutcomes.OtherStepsExactly | keeper/src/index.ts:549-576 | what confirming, closing, crashing, enqueueing and other writers leave |
| MapConcurrent.StepInv | keeper/src/index.ts:224-229 | any worker's step keeps every index accounted for: unclaimed, running, stored or rejected |
| MapConcurrent.StepDecreases | keeper/src/index.ts:224-229 | every step lowers a measure |
| MapConcurrent.EveryInterleaving | keeper/src/index.ts:217-233 | in every interleaving each index is claimed at most once, at most min(concurrency, n) calls are in flight, the run ends within a linear number of steps, and then result i is fn(items[i], i) or some call was rejected |
| MapConcurrent.FullConcurrencyReached | keeper/src/index.ts:217-233 | a run has min(concurrency, n) calls in flight at once |
| MapConcurrent.MapConcurrent | keeper/src/index.ts:217-233 | resolves exactly when every call does, with the results in item order; with concurrency 0 or less every element is unset |
| SchedulerProtocol.RunInv | keeper/src/scheduler.ts:592-690 | row, history and calls in flight agree in every state of every run, overlapping calls included |
| SchedulerProtocol.RunLocks | keeper/src/scheduler.ts:596-608 | in every run a key whose section holds calls is locked by their one session, taken at least as often as there are of them |
| SchedulerProtocol.MutualExclusion | keeper/src/scheduler.ts:596-608 | whatever the hash, all calls between lock and unlock of a schedule belong to one session |
| SchedulerProtocol.StampsIncrease | keeper/src/scheduler.ts:632-645 | any two executions of a schedule have strictly increasing stamps in every run, by the compare-and-set alone |
| SchedulerProtocol.TooCloseExactlyWhenOvertaken | keeper/src/scheduler.ts:610-645 | in every run an execution comes less than its minimum interval after the one before it if and only if it was overtaken between reading the row and claiming it |
| SchedulerProtocol.SpacedExactlyUnlessOvertaken | keeper/src/scheduler.ts:610-645 | in every run, whatever overlaps, the executions of a schedule keep the interval they were checked against if and only if none of them was overtaken |
| SchedulerProtocol.OvertakenWithinSession | keeper/src/scheduler.ts:596-645 | the overtaking call is another one of the same session, inside at the same time |
| SchedulerProtocol.ExecutionsSpaced | keeper/src/scheduler.ts:592-645 | hence, as long as no session overlaps two calls on the schedule, executions are also at least the checked minimum interval apart, though clocks disagree and are read before the lock |
| SchedulerProtocol.OverlapBreaksSpacing | keeper/src/scheduler.ts:577-579 | two overlapping calls of one session run closer together than the minimum interval |
| SchedulerProtocol.RowRecordsLatest | keeper/src/scheduler.ts:632-673 | `last_run_at` is the latest execution, and `last_completed_at` never runs ahead of it |
| SchedulerProtocol.UndisturbedEffect | keeper/src/scheduler.ts:592-690 | a call with nothing in between runs the handler exactly when its session can take the lock and the schedule is due, and leaves the locks as they were |
| SchedulerProtocol.UndisturbedCallRunsExactlyWhenDue | keeper/src/scheduler.ts:592-690 | such a call runs the handler if and only if the lock is free or its own session's, the schedule exists, its clock is past the last run and the interval, if any, has passed; and what it leaves in the row |
| SchedulerProtocol.GuardPassedExactlyWhenDue | keeper/src/scheduler.ts:610-630 | in every run a call that reads the row goes on to its claim if and only if the schedule exists and has not run, has no interval, or last ran at least that long before the call's clock |
| SchedulerProtocol.Scheduler.ExecuteSchedule | keeper/src/scheduler.ts:592-690 | the method's tables end as after the protocol's steps |
| CronWindows.AverageGap | keeper/src/scheduler.ts:424-436 | the gaps of any k numbers, in any order, average to 60 / k because the wrap-around gap closes the hour |
| CronWindows.ParseCronInterval | keeper/src/scheduler.ts:406-453 | the parser with its gap loop returns the interval of the matching pattern |
| CronWindows.IntervalFacts | keeper/src/scheduler.ts:406-453 | no expression gets a negative interval, and a comma list of k numbers gets an hour over k |
| CronWindows.CommaListNearFires | keeper/src/scheduler.ts:383-438 | for k distinct minutes in any order the estimate stays within k of the fires since the last completion, however long ago that was |
| CronWindows.MissedNearFires | keeper/src/scheduler.ts:383-399 | for a grid whose step divides its cycle the estimate lies between F - 2 and F - 1 of the F fires since the last completion |
| CronWindows.StepExpressionNearFires | keeper/src/scheduler.ts:383-453 | so it does for `*/N * * * *` and `0 */N * * *` with N dividing the hour or the day, for `* * * * *` and for `0 * * * *`, read from the expression |
| CronWindows.DailyExpressionNearFires | keeper/src/scheduler.ts:383-453 | and for `0 H` as minute and hour, against the fires at H o'clock |
| CronWindows.ListExpressionNearFires | keeper/src/scheduler.ts:383-453 | for the expression of a list of k minutes it stays within k of the fires |
| CronWindows.MissedNeverOvercounts | keeper/src/scheduler.ts:373-453 | for every N, dividing or not, the estimate never exceeds the true number of earlier fires |
| CronWindows.HandleMissedRuns | keeper/src/scheduler.ts:547-563 | publishes min(missed, 50) stamps, increasing, one interval apart, ending now, all at least two intervals after the last completion |
| CircuitBreakers.KeeperBreaker.Enter | keeper/src/circuit-breaker.ts:36-55 | admission of a call |
| CircuitBreakers.KeeperBreaker.Leave | keeper/src/circuit-breaker.ts:57-75 | settlement of a call |
| CircuitBreakers.KeeperBreaker.ResetBreaker | keeper/src/circuit-breaker.ts:89-97 | reset clears every field |
| CircuitBreakers.ApiBreaker.Enter | api/src/lib/circuit-breaker.ts:55-78 | admission of a call |
| CircuitBreakers.ApiBreaker.Leave | api/src/lib/circuit-breaker.ts:80-117 | settlement of a call |
| CircuitBreakers.ApiBreaker.ResetBreaker | api/src/lib/circuit-breaker.ts:120-124 | reset keeps only the time of the last failure |
| CircuitBreakers.FailureCountIsTrailingRun | keeper/src/circuit-breaker.ts:57-75 | under every interleaving the counter is the number of failures settled since the last success or reset, and a closed breaker is below its threshold |
| CircuitBreakers.NoAdmissionDuringCooldown | api/src/lib/circuit-breaker.ts:55-70 | after the breaker opens no call is admitted for the timeout, whatever was in flight, unless a reset or (API) a late success comes |
| CircuitBreakers.BreakersEquivalent | api/src/lib/circuit-breaker.ts:55-117 | on every sequential run both breakers admit the same calls and agree on state and count; between calls neither is half-open, and open means threshold reached |
| CircuitBreakers.BreakersPartExactly | keeper/src/circuit-breaker.ts:36-75 | on every sequence of overlapping calls the breakers agree on state, count and probe flag up to any point if and only if no success settled while they were open and no call came when the timeout had passed for one of them only |
| CircuitBreakers.AlikeUnlessSettledOpen | api/src/lib/circuit-breaker.ts:80-117 | as long as no call settles while they are open they agree, also on the time they opened |
| CircuitBreakers.OverlapSeparatesBreakers | keeper/src/circuit-breaker.ts:57-62 | a success settling after the breaker opened closes only the API breaker |
| CircuitBreakers.OneProbeExactly | keeper/src/circuit-breaker.ts:50-75 | up to any point of a run there was at most one probe and the flag showed it, if and only if no call admitted earlier settled and no reset came during a probe |
| CircuitBreakers.TwoProbesPossible | keeper/src/circuit-breaker.ts:73-75 | a run of each implementation with two probes at once |
| SuiPools.KeeperPool.Call | keeper/src/sui-pool.ts:96-142 | asks the endpoints that are not open, in cyclic order from the cursor, up to the first success |
| SuiPools.KeeperPool.ResetAll | keeper/src/sui-pool.ts:147-152 | every breaker is reset |
| SuiPools.KeeperAsksOnce | keeper/src/sui-pool.ts:96-142 | no endpoint is asked twice; without a winner exactly the endpoints that are not open were asked; there is no winner exactly when every endpoint that would answer is open |
| SuiPools.OpenEndpointStaysOut | keeper/src/sui-pool.ts:104-110 | an open endpoint keeps its breaker unchanged through every later call |
| SuiPools.RoundRobin | keeper/src/sui-pool.ts:112-116 | in every run answered at the first ask, whatever endpoints are open, call k is served by the endpoint k places after the starting cursor among those that are not |
| SuiPools.UsageBalanced | keeper/src/sui-pool.ts:96-116 | in every such run open endpoints serve no call, and any two others serve numbers of calls that differ by at most one |
| SuiPools.ApiPool.GetAvailableEntries | api/src/lib/sui-pool.ts:208-220 | returns closed and cooled-down endpoints in order and closes the latter |
| SuiPools.ApiPool.AskInTurn | api/src/lib/sui-pool.ts:170-198 | asks the available endpoints from the round-robin position, none twice, up to the first success |
| SuiPools.ApiPool.Call | api/src/lib/sui-pool.ts:164-206 | asks the available endpoints in turn from the round-robin position up to the first success; entries and position end as after exactly those attempts |
| SuiPools.ApiAsksOnce | api/src/lib/sui-pool.ts:164-206 | no endpoint is asked twice, none that is not available, and a failed call has asked every available one |
| SuiPools.CooledDownEndpointAskedInItsTurn | api/src/lib/sui-pool.ts:164-220 | a call asks an open endpoint if and only if its timeout has passed and every available endpoint whose turn comes earlier fails |
| SuiPools.CounterIsFailuresInARow | api/src/lib/sui-pool.ts:180-236 | over any calls on a fresh pool an endpoint's counter is the number of its failures since it last answered |
| SuiPools.OpensExactlyAtThreshold | api/src/lib/sui-pool.ts:222-236 | an asked endpoint is open afterwards if and only if it failed and that number has reached the threshold |
| SuiPools.NotAskedWhileCoolingDown | api/src/lib/sui-pool.ts:208-236 | no later call asks it until the timeout has passed since that failure |
| SuiPools.ApiUsageDrifts | api/src/lib/sui-pool.ts:172-186 | with the same endpoints available throughout and calls answered at the first ask, after c rounds of n calls the first n mod m of the m available endpoints have served c calls more than each of the others |
| SuiPools.ApiUsageEvenExactly | api/src/lib/sui-pool.ts:172-186 | so usage is even if and only if m divides n |
| CursorPagination.Listing | api/src/lib/cursor-pagination.ts:94-103 | a table's rows in query order, each once |
| CursorPagination.OrderedUnique | api/src/lib/cursor-pagination.ts:94-103 | the tiebreak makes the order of a query's rows unique |
| CursorPagination.PageShape | api/src/lib/cursor-pagination.ts:115-129 | a page is the first `limit` rows behind the cursor, with a next cursor exactly when there are more |
| CursorPagination.TraversalUnderWrites | api/src/lib/cursor-pagination.ts:76-129 | with arbitrary writes between fetches a traversal yields strictly ordered rows, none twice, and once finished every row present throughout (in `desc` when no sort value is shared) |
| CursorPagination.TraverseIsCollect | api/src/lib/cursor-pagination.ts:76-129 | traversal of a static table finishes, ties or not, within one fetch more than the table has rows |
| CursorPagination.AscTraversalIsListing | api/src/lib/cursor-pagination.ts:76-129 | in `asc` the pages concatenate to the sorted table |
| CursorPagination.DescTraversalExactlyWhenBoundariesUntied | api/src/lib/cursor-pagination.ts:76-129 | in `desc` they do exactly when no page ends on a row that shares its sort value |
| RateLimit.InMemoryStore.Increment | api/src/middleware/rate-limit.ts:44-73 | count, reset and remaining time of one key's window |
| RateLimit.InMemoryStore.Sweep | api/src/middleware/rate-limit.ts:49-57 | deletes exactly the expired counters of one limiter |
| RateLimit.InMemoryStore.Allow | api/src/middleware/rate-limit.ts:164-185 | admits exactly when the count is within the maximum |
| RateLimit.IntervalBound | api/src/middleware/rate-limit.ts:62-73 | a closed interval of length `windowMs` admits at most 2 * max - 1 requests of a key |
| RateLimit.IntervalBoundIsTight | api/src/middleware/rate-limit.ts:62-73 | every limiter has a trace that reaches that bound |
| RateLimit.WindowAdmitsFirstMax | api/src/middleware/rate-limit.ts:62-73 | a counting window admits its first `max` requests and no more |
| RateLimit.AnswersDependOnOwnRequests | api/src/middleware/rate-limit.ts:44-73 | sweeps anywhere, other keys and other limiters never change an answer |
| RateLimit.AnswersExactly | api/src/middleware/rate-limit.ts:62-73 | the first request of a window is told one and the whole window, a later one is told one more than the request before it and exactly what is left of the window, whose last millisecond still belongs to it |
| RateLimit.StoreIntervalBound | api/src/middleware/rate-limit.ts:44-185 | so the bound holds on the shared, swept store |
| RateLimit.RetryAfterHonouredExactlyWhenRoundedUp | api/src/middleware/rate-limit.ts:172-184 | waiting the advertised seconds helps if and only if the remaining time was rounded up |
| CostEngine.Engine.CheckBudgetBeforeExecution | api/src/lib/cost-engine.ts:122-237 | allowed exactly when every effective limit holds the estimate (or overridden); names the first limit that does not; soft threshold exactly when some watched budget crosses it |
| CostEngine.AllowedExactly | api/src/lib/cost-engine.ts:122-237 | a check that is not overridden lets a request through if and only if every limit that binds it has room for the estimate on top of the costs of the last 86_400_000, 604_800_000 or 2_592_000_000 ms (or of all time); when it warns |
| CostEngine.SpentIsOfTheLastPeriod | api/src/lib/cost-engine.ts:317-385 | the sum read for a daily, weekly, monthly or lifetime limit is the total of its records in that many last milliseconds |
| CostEngine.BudgetSpentIsOfTheWindow | api/src/lib/cost-engine.ts:292-315 | a budget's spending is that of its organization and project inside its window, both ends included |
| CostEngine.CrossedExactly | api/src/lib/cost-engine.ts:164-226 | a budget is crossed when spending and estimate reach the threshold's share of its amount |
| CostEngine.Engine.RecordActualCost | api/src/lib/cost-engine.ts:239-290 | writes job and ledger together, once, or nothing with the matching error |
| CostEngine.RecordsAreOnceAndForAll | api/src/lib/cost-engine.ts:247-287 | over any calls earlier records stay, and a job has one record exactly when it has an actual cost, for that amount |
| CostEngine.RecordTellsFirstCall | api/src/lib/cost-engine.ts:247-287 | the one record of a job carries cost, project and time of the first call for it and the job's organization, wallet and policies |
| CostEngine.LastChargeFits | api/src/lib/cost-engine.ts:139-162 | the charge that completes an interval was checked against all of it but what its check could not see |
| CostEngine.OverspendBoundedByUnseen | api/src/lib/cost-engine.ts:122-287 | with checks and records interleaved, every interval of a limit's length exceeds its amount by at most what some check could not see |
| CostEngine.SerialSpendingWithinLimit | api/src/lib/cost-engine.ts:317-385 | when each check is followed by its record, no interval of a limit's length ever holds more than its amount |
| CostEngine.TrailingSumWithinLimit | api/src/lib/cost-engine.ts:327-385 | hence the trailing sum the next check reads is within the limit at every instant |
| CostEngine.SerialSpendingPerPeriod | api/src/lib/cost-engine.ts:317-385 | when serial, no interval of 86_400_000, 604_800_000 or 2_592_000_000 ms holds more than a daily, weekly or monthly limit's amount |
| CostEngine.OverlappingChecksOverspend | api/src/lib/cost-engine.ts:139-141 | two checks before the first record overspend a daily limit |
| CostEngine.PolicyLimitUncheckedByQueue | keeper/src/index.ts:350-357 | without a policy id no policy limit is effective, and one renewal exceeds any of them |
| CostEngine.Engine.RolloverBudgetWindow | api/src/lib/cost-engine.ts:426-448 | the two updates leave the window shifted by its length and active, or an error and no change |
| CostEngine.WindowsAdvanceByTheirLength | api/src/lib/cost-engine.ts:432-434 | after k rollovers the window is [s + k d, s + (k + 1) d] |
| CostEngine.WindowsTile | api/src/lib/cost-engine.ts:292-315 | spending over n windows is the ledger total over their union plus, once more, each record on an interior boundary |
| PolicyEngine.FindExplicitBlobAssignment | api/src/lib/policy-engine.ts:107-127 | the latest active assigned policy, ties to the greater id |
| PolicyEngine.ResolveTagPoliciesByTags | api/src/lib/policy-engine.ts:143-174 | the matching tag policy with most matches, then latest, then greater id; none when none matches |
| PolicyEngine.ResolveWithinScope | api/src/lib/policy-engine.ts:261-278 | the latest row, with `latest` on the path exactly when there was a choice |
| PolicyEngine.ResolveFromScope | api/src/lib/policy-engine.ts:226-259 | the one maximum of all policies by level, matches, time and id |
| PolicyEngine.ResolveEffectivePolicy | api/src/lib/policy-engine.ts:51-101 | the same for a blob, with explicit and blob level above; an error for an unknown blob |
| PolicyEngine.ResolutionIgnoresOrder | api/src/lib/policy-engine.ts:51-278 | the result is a function of the set of rows, not of their order |
| PolicyEngine.MostSpecificWins | api/src/lib/policy-engine.ts:51-101 | an assigned policy wins over one aimed at the blob, that over one sharing a tag, then wallet, project, organization, and the default applies only without any; the path names the level |
| PolicyEngine.WinnerAmongItsLevel | api/src/lib/policy-engine.ts:143-174 | among its level the winner is the latest, then the one with the greater id; among tag policies the number of matches comes first |
| PolicyEngine.PathSaysLatest | api/src/lib/policy-engine.ts:261-278 | elsewhere than at the explicit level and among tags the path ends in `latest` if and only if the level had more than one policy |
| PolicyEngine.BroaderPolicyChangesNothing | api/src/lib/policy-engine.ts:48-49 | adding a policy at a broader level than the winner's changes neither winner nor path |
| PolicyEngine.AddedPolicyWinsExactlyWhenItBeats | api/src/lib/policy-engine.ts:42-50 | an added policy replaces the winner exactly when it outranks it |
| PolicyEngine.ScopeResolutionAgrees | api/src/lib/policy-engine.ts:220-259 | both entry points agree for a blob without explicit assignment and blob-scope policy |
| PolicyEngine.CountIsNarrownessExactlyWithoutRepeats | api/src/lib/policy-engine.ts:157-166 | the ranking count is the number of tags matched exactly when no matched tag is listed twice |
| Saga.ExecuteWithCompensation | api/src/lib/compensating-actions.ts:19-47 | either every action ran once in order with one result each, or the first to throw was followed by compensation of exactly the completed prefix in reverse |
| Saga.AllOrNothing | api/src/lib/compensating-actions.ts:30-43 | if compensations undo their actions and a failing action changes nothing, a failed run restores the initial state |
| Saga.EveryCompletedActionCompensatedOnce | api/src/lib/compensating-actions.ts:31-41 | failing or timed-out compensations do not stop the others |
| Saga.OutcomeIsDetermined | api/src/lib/compensating-actions.ts:25-46 | a run fails at one place or succeeds, never both |
| Saga.FailedCompensationLeavesResidue | api/src/lib/compensating-actions.ts:33-40 | without working compensations a failed run can leave the world changed |
| JobQueue.JobStore.PublishJob | api/src/lib/queue.ts:25-38 | a new queued row with no attempts |
| JobQueue.JobStore.ClaimNextJob | api/src/lib/queue.ts:40-55 | claims a minimal queued row by priority and schedule, or reports none |
| JobQueue.JobStore.SendToDlq | api/src/lib/queue.ts:71-98 | moves the row in one step, or does nothing when it is gone |
| JobQueue.JobStore.ProcessNextJob | api/src/lib/background-jobs.ts:38-65 | one iteration is claim, run or reject, settle |
| JobQueue.JobStore.Drain | api/src/lib/background-jobs.ts:38-65 | draining terminates with nothing queued |
| JobQueue.DrainClaimsAllInOrder | api/src/lib/queue.ts:43-46 | draining claims every queued job exactly once, in non-decreasing priority and schedule |
| JobQueue.DrainAscends | api/src/lib/queue.ts:43-46 | so a drained queue was worked off by ascending priority number, then by ascending schedule |
| JobQueue.RowAfterStep | api/src/lib/background-jobs.ts:38-65 | what each step of a run leaves: a handler that returns completes its job, a throwing one fails or dead-letters it, a job without handler fails, and nothing else changes |
| JobQueue.IdsAreConserved | api/src/lib/queue.ts:25-98 | in every run, crashes included, the published ids are the disjoint union of queue and dead letters |
| JobQueue.HandledAtMostOnce | api/src/lib/background-jobs.ts:38-65 | no job is claimed or handled twice |
| JobQueue.NeverQueuedAgain | api/src/lib/queue.ts:40-69 | a row that left `queued` never returns |
| JobQueue.DeadLetteredExactlyWhenOneAttempt | api/src/lib/background-jobs.ts:54-61 | a throwing handler sends its job to the dead letters exactly when it allows at most one attempt |
| JobQueue.CrashStrands | api/src/lib/queue.ts:43-52 | a crash while a job is held leaves it `processing` for ever |
| NotificationEngine.Engine.CheckFlapping | keeper/src/notification-engine.ts:49-63 | counts the check and answers |
| NotificationEngine.Engine.SweepTracker | keeper/src/notification-engine.ts:42-47 | deletes exactly the stale entries |
| NotificationEngine.FlappingExactlyOnStreaksOfThree | keeper/src/notification-engine.ts:42-63 | with sweeps and other entities anywhere, it is true exactly when this check ends a streak of three with no gap over the window |
| NotificationEngine.SuppressionRenewsItself | keeper/src/notification-engine.ts:58-62 | once suppressed, an entity stays suppressed through any number of checks each within the window of the one before |
| NotificationEngine.Engine.RetryDelivery | keeper/src/notification-engine.ts:71-99 | at most three sends, stopping at the first success |
| NotificationEngine.Engine.Deliver | keeper/src/notification-engine.ts:219-286 | one notification, inserted queued and left delivered or failed along machine edges |
| NotificationEngine.Engine.DeliverPrimary | keeper/src/notification-engine.ts:155-289 | tries every usable channel with no notification in the window before the call, none with one in the window before its turn, and one channel twice only a window apart |
| NotificationEngine.Engine.Escalate | keeper/src/notification-engine.ts:316-393 | tries usable escalation channels that are not primaries, in order, up to the first success |
| NotificationEngine.Engine.EmailFallback | keeper/src/notification-engine.ts:414-477 | one unretried send to an active email channel of the organization, if any |
| NotificationEngine.Engine.Aggregate | keeper/src/notification-engine.ts:291-505 | escalation only after all primaries failed; giving up only after every usable escalation channel was tried, and then with an email exactly when one can be sent; the final status |
| NotificationEngine.Engine.ProcessAlertEvent | keeper/src/notification-engine.ts:116-505 | at most 3 * (channels + escalation channels) + 1 sends, only to active channels of the alert's organization; every new notification delivered or failed as its sends did; the alert is delivered exactly when all primaries succeeded, or all failed and an escalation succeeded; it is given up only after every usable escalation channel and, where possible, an email; fully deduplicated it ends undeliverable |
| NotificationEngine.SucceededExactlyByOwnSends | keeper/src/notification-engine.ts:71-99 | every send of a call belongs to one delivery and goes to its channel, and a delivery succeeded if and only if one of its own sends did |
| NotificationEngine.Engine.StatusFollowsSends | keeper/src/notification-engine.ts:291-505 | with a primary to try, an alert is delivered when every send succeeds; it is given up when none does; it is partly delivered exactly when one primary delivery succeeded and another failed |
| NotificationEngine.Engine.ChannelsTried | keeper/src/notification-engine.ts:130-477 | which channels of the rule, of its escalation and which email are tried, in terms of the rows of channels, rules and notifications |
| NotificationEngine.NotificationEdges | api/src/lib/state-machine.ts:365-375 | the notification machine accepts exactly three moves |
| NotificationEngine.FinalStatusOnMachineExactlyWhenDelivered | api/src/lib/state-machine.ts:244-257 | the status written over `fired` is a registered move exactly when it is `delivered` |

## Left out

- The cron-scan path of the keeper (keeper/src/index.ts:807-950) and polls of two workers at once: the queue is modelled with one worker.
- Crashes of the worker elsewhere than around the executor call and the success updates, and database errors elsewhere in an iteration; recovery's own error handling.
- Deletion of blobs, which takes their jobs along. With the foreign key the queue's branch for a missing registration is never taken.
- What the executor does inside one call, its own retries included.
- The policy, vault and publisher lookups of an iteration: their findings are a parameter. Estimates and their freshness only feed the budget check's answer.
- Error messages, metadata histories, audit rows, activity feed, events and metrics: no effect on the modelled state.
- The hash of a schedule id is an arbitrary function, so results hold whatever collides. An instance of the scheduler is one database session, for whose overlapping calls the lock is re-entrant; a pool that spreads the statements of one call over several sessions is not modelled. The affected-row count at keeper/src/scheduler.ts:636-642 is taken as the count the code means to read.
- The catch-up consumer, which takes no lock, and the escalation of missed schedules.
- Trimming and tokenising of cron strings, which strings `Number` accepts (an arbitrary function), and the truncation of fractional milliseconds by `Date`.
- Clocks of the breakers, the limiter and the flapping tracker that run backwards.
- SuiPools.ApiPool.Call: overlapping calls and the abort signal are not modelled; a call is one step.
- Encoding of cursors, query parameters and limits; a cursor is the pair of id and sort value.
- The Redis store, key extraction and response headers; a limiter's map name is its pair of window and maximum.
- Costs are reals, so rounding of FLOAT8 sums is not modelled. A record's wallet and policies are those the joins give and do not change afterwards; the estimate arithmetic is left out.
- PolicyEngine.ResolveEffectivePolicy: the copied settings of the chosen policy and malformed rule JSON are left out.
- Saga.ExecuteWithCompensation: does not model effects that a timed-out compensation has after its time-out.
- Several job workers: `claimNextJob` selects and updates without a status guard, so exclusivity fails there. Handlers are a fixed set; registering one twice is an error that only adds an easy claim.
- `registerMachine` and the map of machines: each modelled machine is a constant.
- NotificationEngine.Engine.ProcessAlertEvent: does not model time passing outside sends and the pauses between them, nor decryption of channel settings and rollback of its transactions.
- HTTP routes, CLI, SDK, UI, encryption, leader election, chain access: foreign calls or plumbing.
