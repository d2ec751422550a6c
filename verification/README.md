# A verified model of the task pool

The pool runs submitted tasks on N workers over a pluggable store: an in-memory array heap, SQLite or MySQL. This
project models the parts in which its guarantees live and proves them for every input, every interleaving or every
run:

| file | models |
|---|---|
| `Tasks.dfy` | task records, lifecycle states, errors |
| `Heaps.dfy` | the array heap with `container/heap` push, removal at any index and init; class `MemHeap` does them by in-place swaps |
| `Store.dfy` | the simple store: a task table and a set of queued ids |
| `MemoryQueue.dfy` | every memory-backend operation on its whole state, its invariants, and the refinement of the simple store |
| `HeapKeys.dfy` | whether the heap orders by what is stored |
| `MemoryBackend.dfy` | class `MemoryBackend`, the same operations in place with the source's loops |
| `Wakeup.dfy` | blocked dequeuers and the channel that wakes them |
| `Dispatch.dfy` | the order in which tasks are handed out |
| `Parity.dfy` | where the kinds of backend store the same |
| `Rows.dfy`, `SqlClaims.dfy`, `SqlBackends.dfy` | the SQL statements on a row table, the interleaved SELECT/UPDATE claim protocol, and the SQLite and MySQL backends as classes |
| `Engine.dfy` | the worker/control protocol as a transition system with a program counter per worker |
| `Ownership.dfy`, `Signals.dfy`, `Capacity.dfy`, `Activity.dfy`, `Pauses.dfy`, `Batches.dfy`, `BatchLeaks.dfy`, `Accounting.dfy` | what holds in all its runs |
| `Records.dfy`, `Attempts.dfy`, `Traces.dfy` | what each step writes to each record, what no run changes, how many attempts a task gets, and what the shared maps say about the run that led to them |
| `Execution.dfy` | one undisturbed execution as the composition of its steps, and what it leaves behind |
| `TaskPool.dfy` | class `TaskPool`, which performs the steps of the transition system in place on top of `MemoryBackend` |
| `Witnesses.dfy` | concrete runs that reach the failures named below |
| `Progress.dfy`, `Metrics.dfy` | the progress throttle and the counters, each with its class |

How the layers meet: each method of `MemHeap`, `MemoryBackend`, `TaskPool` and the SQL classes is proved to do to its
fields what a specification function says, and the theorems are proved about those functions.
`MemoryQueue.StepRefinesStore` shows that the heap, its index and its capacity check act as the simple store over which
`Engine` runs; `TaskPool.TaskPool` uses that refinement, so every invariant of the runs of `Engine` holds after any
sequence of `TaskPool` calls on the heap-backed queue. `Engine` has more runs than there are such sequences, because a
call of the class may perform several steps that other workers can interrupt.

One step is one region that the source runs under a lock, or on locals only. StopTask, and Terminate on a running task,
are two steps (record the intent, call the cancel function), and so are Submit (queue the task, track it) and SetProgress
(cache the value, write it); a pause ends in three (read the cache, write the value, set the status). What is still taken
as one step although the source unlocks in between is listed under "Left out". Identifiers, type names, batch ids and
payloads are natural numbers of which only equality matters, times are integers, and handlers return success or failure
at will (a panic and a timeout are failures).

## What the code does and does not keep

Where the code meets its evident intent only under a condition, the code is modelled as it is and the exact condition
is proved; the lemmas in `Witnesses`, and those named below that give concrete inputs, show the failures happening.

- CancelBatch on the memory backend inverts its filter: it takes every waiting task out of the heap, other batches
  included, and keeps the dead items. No accepted task is lost exactly when every accepted waiting task is in the
  cancelled batch (`MemoryQueue.CancelBatchLosesExactly`, `Activity.CancelBatchStrandsExactly`; reached in
  `Witnesses.CancelBatchLoses` and `Witnesses.CancelBatchStrands`).
- Delete leaves the heap item behind: the index stops mirroring the heap exactly when a queued id is deleted
  (`MemoryQueue.MirrorBreaksExactly`; `Witnesses.DeleteBreaksMirror`). Left-over items count against the capacity and
  only CancelBatch removes them (`MemoryQueue.LeftoversStay`, `MemoryQueue.CancelBatchClearsLeftovers`), so an open queue
  refuses with fewer than its capacity queued exactly when they fill it up (`MemoryQueue.RefusesShortExactly`;
  `Witnesses.LeftoverFillsQueue`).
- A queued id that is saved or enqueued again keeps its old place: the heap orders by the stored priority and creation
  time as long as no such call changes them, and exactly then (`HeapKeys.StepKeepsKeysExactly`).
- A Save of an accepted task that is no longer in the heap, as waiting, loses it (`MemoryQueue.StepLosesExactly`).
- Recover on the memory backend re-opens running tasks without queueing them (`MemoryQueue.RecoverLosesExactly`;
  `Witnesses.RecoverLoses`).
- A refused Submit leaves a Pending record that no worker sees and Start refuses (`Activity.SubmitStrandsExactly`,
  `Activity.StrandedIsNeverClaimed`; `Witnesses.RefusedSubmitStrands`).
- The scan takes the first ready item in array order. Dequeue claims a best ready item in every valid queue with a given
  pattern of ready positions exactly when the first ready position is a tree ancestor of all of them
  (`Dispatch.DequeueClaimsBestExactly`); three submissions with a delayed root break it (`Dispatch.DelayedRootIsReached`,
  `Dispatch.DelayedRootClaimsTheWorse`).
- A status write, save or restart of a task whose item is still in the heap does not wake sleepers: the exact
  condition is in `Wakeup.StepArmsExactly`, and `Witnesses.ResaveLosesWakeup` is a queued id saved again on a full
  queue. The pool's own calls never lose a wake-up (`Wakeup.PoolLosesNoWakeup`). A dequeuer's nap has no length
  exactly when nothing is waiting or something falls due at this instant, so with nothing delayed it polls without a
  pause (`Wakeup.NapIsEmptyExactly`; `Witnesses.EmptyQueuePolls`).
- The SQL claim takes only status 0, so a Delayed row is never claimed (`SqlClaims.DelayedIsNeverClaimed`). The kinds of
  backend also differ on the instant of the schedule (`<` against `<=`, `Dispatch.ReadinessAgreesExactly`;
  `Witnesses.BackendsDiffer`), on whether a status write clears the done time, on what a re-enqueue overwrites, on a save
  of a stored id, on a full queue, and on Retrying tasks after a crash: `Parity.StepAgreesExactly` has the exact
  condition for every call.
- MySQL's claim skips locked rows, so it is a claim in order exactly when it passes over no better row
  (`SqlClaims.LockedClaimIsTwoSteps`; `Witnesses.LockedClaimOutOfTurn`).
- The MySQL row scan reads the metadata column and drops it, although pool/task.go:98-100 says that metadata is stored
  and read back (`SqlBackends.ReadBackExactly`; `Witnesses.MysqlLosesMetadata`).
- An accepted StopTask or Terminate stops the execution it was accepted for if and only if that execution still has its
  intervention check ahead of it (`Signals.SignalIsHeededExactly`). Otherwise it leaves the execution's outcome alone
  (`Signals.LateSignalIsIgnored`) and stops the next execution that comes to a check
  (`Signals.LateSignalHitsTheNextExecution`; in `Witnesses.LateSignalPausesTheNext` a success that nobody asked to stop
  is stored as Paused). The unknown-type branch has no check at all (`Signals.UnknownTypeIgnoresStop`;
  `Witnesses.UnknownTypeIgnoresStop`).
- A deferred unregistration erases whatever entry its id has. Until an execution has written its outcome it is reachable
  for StopTask if and only if no other worker has unregistered its id since (`Signals.ReachableExactly`;
  `Witnesses.UnlistHides`), and StopTask on a task stored as Running is refused exactly as
  `Signals.StopIsRefusedExactly` says. With one worker the registry is exact (`Signals.SequentialRegistryIsExact`).
- A retry on the memory backend writes the worker's old copy over the record. It keeps what was stored if and only if the
  last progress written and the last metadata saved since the claim are the claimed values
  (`Pauses.RetryKeepsRunsExactly`; `Witnesses.RetryLosesCheckpoint`).
- Section 4.5 of pool/设计文档-任务生命周期控制-v0.4.0.md says that a stop flushes the cached progress so that nothing is lost. A pause
  reads the cache, writes and sets the status in three separately locked regions, and SetProgress accepts any id at any
  time and writes after it has unlocked. From the reading of the cache to the status, a task is paused with its last
  report if and only if the last value reported is the last one written (`Pauses.PauseIsFreshExactly`); and a step
  disturbs this exactly if it is a report of another value, or the late arrival of one, on a task that is paused or being
  paused (`Pauses.StepStalesExactly`). It fails in `Witnesses.LateReportStales` (a throttled report after the pause),
  `Witnesses.ReportDuringPauseIsLost` (a report between the reading and the flush) and `Witnesses.OlderReportLandsLast`
  (two concurrent reports).
- That section says too that the ends by intervention still count the batch, so
  that its count does not leak. They do, but other ends do not: members withdrawn or cancelled while queued, abandoned at
  the semaphore during shutdown, refused by a retry's Enqueue, or counted before their submit is tracked are lost to the
  count. `BatchLeaks.BalanceInRuns` is the conservation law for all runs, `BatchLeaks.CountCallsBackExactly` the exact
  condition for a callback, `BatchLeaks.RestedCountLeaksExactly` what is left at rest. Batches are silenced in
  `Witnesses.TerminatedMemberSilencesBatch` and `Witnesses.EarlyCountIsMissed`, called back too early in
  `Witnesses.UntrackedSubmitIsReportedPending`, called back twice in `Witnesses.LateSubmitCallsBackTwice`, and report a
  record that nobody will run in `Witnesses.RefusedSubmitIsReportedPending`.
- pool/config.go:50-53 says that reports within the throttle interval are merged into one write of the last value. A
  throttled last report is never written (`Progress.LatestIsStoredExactly`, `Progress.LastReportIsDropped`), but what is
  stored lags only by reports made within the interval after a flush (`Progress.StoredIsRecent`); a pause does flush it
  (`Pauses.PausedFreshInRuns`).
- `dequeue` looks for work before it looks at the context: stopping the pool changes nothing about which tasks a worker in
  Dequeue can claim (`Activity.ShutdownStopsNoClaim`; `Witnesses.StoppedPoolStillClaims`).

## Model

| member | source | states |
|---|---|---|
| Heaps.LessIsStrictWeakOrder | pool/memory_backend.go:445-450 | Less is a strict weak order whose ties are exactly equal (priority, created) keys |
| Heaps.UpRestoresOrder | pool/memory_backend.go:125-129 | sifting up repairs a heap in which one item may be less than its parent |
| Heaps.DownRestoresOrder | pool/memory_backend.go:252-256 | sifting down repairs a heap in which one item may be greater than its children |
| Heaps.PushKeepsOrder | pool/memory_backend.go:125-129 | heap.Push keeps the heap order |
| Heaps.RemoveKeepsOrder | pool/memory_backend.go:171 | heap.Remove at any index keeps the heap order, whichever way the filler moves |
| Heaps.InitOrders | pool/memory_backend.go:397 | heap.Init orders any array |
| Heaps.PushContents | pool/memory_backend.go:125-129 | Push adds exactly the new item to the bag of items and of ids |
| Heaps.RemoveContents | pool/memory_backend.go:171 | Remove at i takes out exactly the item at i |
| Heaps.ExtractedIsLast | pool/memory_backend.go:458-464 | the item that Pop returns is the one that was at i |
| Heaps.HeapifyShuffles | pool/memory_backend.go:397 | Init keeps the bag of items |
| Heaps.AncestorPrecedes | pool/memory_backend.go:443-464 | in a heap no item comes after one below it in the tree |
| Heaps.RootIsMinimal | pool/memory_backend.go:443-464 | the root is minimal |
| Heaps.MemHeap.Swap | pool/memory_backend.go:452 | exchanges two items in place |
| Heaps.MemHeap.SiftUp | pool/memory_backend.go:125-129 | the swap loop does what the specification of up says |
| Heaps.MemHeap.SiftDown | pool/memory_backend.go:252-256 | the swap loop does what the specification of down says and reports whether the item moved |
| Heaps.MemHeap.Push | pool/memory_backend.go:454-456 | append and sift up: the heap with the item pushed |
| Heaps.MemHeap.Remove | pool/memory_backend.go:458-464 | the heap without the item at i, which is returned |
| Heaps.MemHeap.Init | pool/memory_backend.go:397 | the array heapified from the last parent down |
| MemoryQueue.FirstReady | pool/memory_backend.go:152-168 | the first ready index in array order: it is ready and nothing before it is |
| MemoryQueue.FirstOf | pool/memory_backend.go:252-257 | the first item of an id |
| MemoryQueue.StepKeepsQueueInv | pool/memory_backend.go:54-133 | no operation with any arguments breaks heap order, the capacity, or that indexed ids are stored and have an item |
| MemoryQueue.CancelBatchContents | pool/memory_backend.go:374-404 | after CancelBatch the heap holds exactly the items of stored tasks that are not waiting, and the index their ids |
| MemoryQueue.CancelBatchLosesExactly | pool/memory_backend.go:389-396 | CancelBatch loses no accepted waiting task if and only if all of them are in the batch |
| MemoryQueue.RecoverLosesExactly | pool/memory_backend.go:468-487 | Recover loses no accepted task if and only if every running one still has an item |
| MemoryQueue.StatusWriteLosesExactly | pool/memory_backend.go:264-279 | a status write loses no accepted task if and only if it does not re-open one without an item |
| MemoryQueue.StepLosesExactly | pool/memory_backend.go:78-133 | for every operation: the exact condition under which each waiting task whose last Enqueue was accepted keeps its heap item |
| MemoryQueue.RunsLoseNothing | pool/memory_backend.go:54-404 | over every run the invariant holds, and no task whose last Enqueue was accepted waits without a heap item while the condition is respected |
| MemoryQueue.MirrorBreaksExactly | pool/memory_backend.go:78-85 | the index stays equal to the bag of heap ids under every operation but a Delete of a queued id, which breaks it |
| MemoryQueue.MirrorsInRuns | pool/memory_backend.go:54-404 | the same over every run in which no queued id is deleted |
| MemoryQueue.RunsFromEmpty | pool/memory_backend.go:24-37 | every run from the empty queue: heap order, capacity and index; nothing lost and one item per queued id under the two conditions |
| HeapKeys.StepKeepsKeysExactly | pool/memory_backend.go:98-130 | a call keeps the keys in the heap equal to the stored ones if and only if it is no save or accepted re-enqueue of a queued id with another priority or creation time |
| HeapKeys.KeyedInRuns | pool/memory_backend.go:54-404 | over every run without such a call and without reused ids the heap orders the queued tasks by what is stored |
| MemoryQueue.ClosedForGood | pool/memory_backend.go:45-96 | in every run after Close the queue stays closed, its heap never grows, and no Enqueue is accepted |
| MemoryQueue.EnqueueRefines | pool/memory_backend.go:87-133 | Enqueue acts on the simple store: queued exactly if open and below capacity, one item per id |
| MemoryQueue.ClaimRefines | pool/memory_backend.go:170-179 | claiming an item is a claim of a claimable id in the simple store |
| MemoryQueue.NothingClaimable | pool/memory_backend.go:152-168 | when the scan finds nothing, nothing is claimable |
| MemoryQueue.DequeueRefines | pool/memory_backend.go:144-179 | dequeue claims a claimable id or there is none |
| MemoryQueue.RemoveRefines | pool/memory_backend.go:234-262 | Remove withdraws exactly a waiting task |
| MemoryQueue.CancelBatchRefines | pool/memory_backend.go:374-404 | CancelBatch is the simple store's batch cancellation |
| MemoryQueue.StepRefinesStore | pool/memory_backend.go:54-299 | with ids not reused, every operation acts on table and queued ids as the simple store says, and keeps one item per queued id |
| MemoryQueue.ItemsSplit | pool/memory_backend.go:81-83 | the heap holds one item per queued id and the left-over ones |
| MemoryQueue.RefusesShortExactly | pool/memory_backend.go:98-105 | an open queue refuses with fewer than cap ids queued if and only if left-over items fill it up |
| MemoryQueue.LeftoversStay | pool/memory_backend.go:152-156 | no operation but CancelBatch takes a left-over item away |
| MemoryQueue.CancelBatchClearsLeftovers | pool/memory_backend.go:390-396 | CancelBatch takes all of them |
| MemoryBackend.MemoryBackend.constructor | pool/memory_backend.go:24-37 | an empty queue, with capacity 100000 for a size that is not positive |
| MemoryBackend.MemoryBackend.Close | pool/memory_backend.go:45-52 | closes and wakes every sleeper |
| MemoryBackend.MemoryBackend.Save | pool/memory_backend.go:54-66 | stores the task and changes nothing else |
| MemoryBackend.MemoryBackend.Get | pool/memory_backend.go:68-76 | the stored task, or not found |
| MemoryBackend.MemoryBackend.Delete | pool/memory_backend.go:78-85 | table, progress and index lose the id; the heap does not |
| MemoryBackend.MemoryBackend.Enqueue | pool/memory_backend.go:87-133 | accepted exactly when open and below capacity, which error otherwise, and the whole new state |
| MemoryBackend.MemoryBackend.Scan | pool/memory_backend.go:147-168 | the first ready index, or with none the earliest schedule of all waiting items |
| MemoryBackend.MemoryBackend.Dequeue | pool/memory_backend.go:144-213 | the first ready item is claimed and returned; otherwise closed, or the nap with the captured channel and wake time |
| MemoryBackend.MemoryBackend.Pending | pool/memory_backend.go:220-232 | the number of due Pending tasks |
| MemoryBackend.MemoryBackend.Remove | pool/memory_backend.go:234-262 | succeeds exactly on waiting tasks; first item of the id removed, task Cancelled |
| MemoryBackend.MemoryBackend.UpdateStatus | pool/memory_backend.go:264-279 | status, error and done time of a stored task; not found otherwise |
| MemoryBackend.MemoryBackend.UpdateProgress | pool/memory_backend.go:281-290 | the cache always, the task if stored |
| MemoryBackend.MemoryBackend.UpdateResult | pool/memory_backend.go:292-299 | the result of a stored task |
| MemoryBackend.MemoryBackend.UpdateMetadata | pool/memory_backend.go:490-497 | the metadata of a stored task |
| MemoryBackend.MemoryBackend.CountByStatus | pool/memory_backend.go:356-372 | each count is the number of tasks in that state; only Paused may be missing |
| MemoryBackend.MemoryBackend.CancelTasks | pool/memory_backend.go:378-383 | exactly the batch's waiting tasks are cancelled, and how many |
| MemoryBackend.MemoryBackend.CancelBatch | pool/memory_backend.go:374-404 | the cancelled table with the heap and index rebuilt, and the number of cancelled tasks |
| MemoryBackend.MemoryBackend.Recover | pool/memory_backend.go:468-487 | exactly the running and retrying tasks become Pending |
| Wakeup.Earliest | pool/memory_backend.go:163-166 | the least schedule of the waiting items, attained by one of them |
| Wakeup.FallingAsleepIsArmed | pool/memory_backend.go:186-196 | a dequeuer falls asleep with nothing due before its wake time |
| Wakeup.NapIsEmptyExactly | pool/memory_backend.go:186-193 | the nap has no length if and only if nothing is waiting or something waiting is due at this instant |
| Wakeup.SleeperMissesNothing | pool/memory_backend.go:205-214 | until its timer an armed sleeper that was not woken has nothing to claim |
| Wakeup.RewriteArmsExactly | pool/memory_backend.go:54-66 | a save, status write or restart leaves a sleeper armed if and only if no queued task becomes due before its wake time |
| Wakeup.StepArmsExactly | pool/memory_backend.go:107-132 | for every operation: the exact condition under which no sleeper is left behind |
| Wakeup.RunKeepsArmed | pool/memory_backend.go:144-218 | the same over every run |
| Wakeup.NoLostWakeup | pool/memory_backend.go:144-218 | a sleeper that was not woken has nothing to claim at any time up to its wake time, after any quiet run |
| Wakeup.PoolRunsAreQuiet | pool/engine.go:231-241 | runs of calls that save only fresh ids and write only statuses that do not wait are quiet |
| Wakeup.PoolLosesNoWakeup | pool/memory_backend.go:144-218 | in all runs of the pool's own calls a sleeper that was not woken has nothing to claim up to its wake time |
| Dispatch.ClaimBeatsItsBranch | pool/memory_backend.go:152-162 | the claimed item has no ready ancestor and precedes every ready item below it |
| Dispatch.FirstReadyIsBestExactly | pool/memory_backend.go:152-162 | a position holds a best ready item in every heap with this ready pattern if and only if it is a tree ancestor of all ready positions |
| Dispatch.PatternQueueIsValid | pool/memory_backend.go:87-133 | every numbered heap with every ready pattern is a valid queue state |
| Dispatch.DequeueClaimsBestExactly | pool/memory_backend.go:152-162 | in every valid queue with a ready pattern dequeue claims a best ready item, if and only if the first ready position is a tree ancestor of all ready positions |
| Dispatch.DelayedRootIsReached | pool/memory_backend.go:87-133 | three accepted submissions to an empty queue reach the counterexample |
| Dispatch.DelayedRootClaimsTheWorse | pool/memory_backend.go:152-162 | with a delayed root, priority 5 is claimed although priority 1 is ready |
| Dispatch.DrainSorts | pool/memory_backend.go:144-179 | draining a fully due queue yields exactly its items sorted by (priority, created) |
| Dispatch.RootIsNextRow | pool/sqlite_backend.go:237-242 | the heap root is a row the ordered SELECT may return |
| Dispatch.DrainIsClaimOrder | pool/sqlite_backend.go:237-242 | the drained ids are an order in which the SQL claim may empty the table |
| Dispatch.HeapDrainsLikeSql | pool/sqlite_backend.go:237-242 | with distinct keys, an order is the SQL claim order if and only if it is the heap's |
| Dispatch.ReadinessAgreesExactly | pool/sqlite_backend.go:239 | the two kinds of backend agree on whether a task is ready except on due Delayed ones and at the very instant of the schedule |
| Parity.StatusWriteAgreesExactly | pool/sqlite_backend.go:284-307 | a status write stores the same in both kinds of backend if and only if it completes, fails or cancels the task or there was no done time |
| Parity.EnqueueAgreesExactly | pool/sqlite_backend.go:151-186 | an Enqueue agrees if and only if a new task is accepted, an accepted copy has the stored values outside the scheduling columns, or a refused copy has the stored scheduling columns |
| Parity.StepAgreesExactly | pool/sqlite_backend.go:97-310 | for every call, in any state of queue and table: the exact condition under which it stores the same tasks in memory and in a database |
| Parity.RunsAgree | pool/memory_backend.go:54-299 | every run of calls that meet their conditions leaves the same tasks in both kinds of backend |
| Rows.RecoverExactly | pool/sqlite_backend.go:460-473 | Recover makes exactly the Running rows Pending, without start time and error and otherwise as they were, leaves all other rows alone, and is idempotent |
| Rows.ClaimOrderIsUnique | pool/sqlite_backend.go:237-242 | with distinct (priority, created) there is one claim order |
| SqlClaims.StepKeepsCounted | pool/sqlite_backend.go:234-264 | each statement keeps: claims of an id plus one while it is Pending are at most its openings |
| SqlClaims.ClaimsNeverExceedOpenings | pool/sqlite_backend.go:234-264 | in every interleaving of two-step claimers with all other statements and crashes an id is claimed at most as often as it was set to Pending |
| SqlClaims.SecondClaimerMisses | pool/sqlite_backend.go:252-262 | the conditional UPDATE claims exactly a row that is Pending then; a second claimer of the same selection changes nothing |
| SqlClaims.LockedClaimExactly | pool/mysql_backend.go:247-253 | of the due Pending rows that nobody else has locked, the claim takes one of least priority number and among those one of the earliest created |
| SqlClaims.LockedClaimIsTwoSteps | pool/mysql_backend.go:237-278 | the locking claim is an ordered SELECT and UPDATE done together if and only if it passes over no better locked row |
| SqlClaims.LockedRunsAreTwoStepRuns | pool/mysql_backend.go:237-278 | every run of such claims is a run of the two-step protocol with the same outcome |
| SqlClaims.DelayedIsNeverClaimed | pool/mysql_backend.go:249 | a Delayed row is not claimed in any run that does not rewrite its status |
| SqlClaims.StatementWritesExactly | pool/sqlite_backend.go:97-310 | what every statement of every run makes of every row, column by column; a new row is the task inserted |
| SqlClaims.RowsKeepSubmission | pool/sqlite_backend.go:151-186 | through every interleaving and crash a row keeps kind, data, batch, retry limit and creation time until it is deleted |
| SqlClaims.RemovedIsNeverClaimed | pool/sqlite_backend.go:272-282 | a removed waiting row is Cancelled and otherwise as it was, and no claimer gets it in any run that does not open it again |
| SqlClaims.RowsAreUndeleted | pool/sqlite_backend.go:146-186 | the stored ids are exactly those stored and not deleted |
| SqlClaims.CrashAnywhereLosesNothing | pool/sqlite_backend.go:460-473 | after a crash at any step and Recover every undeleted row is there; Running ones are claimable and differ only in status, start time and error, all others are untouched |
| SqlBackends.SqliteBackend.Submit | pool/engine.go:231-241 | Submit's INSERT and Enqueue: refused exactly on a stored id, otherwise the row is the submitted task |
| SqlBackends.SqliteBackend.Enqueue | pool/sqlite_backend.go:151-186 | a new row, or the scheduling columns of the stored one |
| SqlBackends.SqliteBackend.Start | pool/engine.go:405-432 | succeeds exactly on startable rows, which become claimable at once, without schedule, times, error and, unless paused, retries, and are otherwise as they were |
| SqlBackends.SqliteBackend.SelectNext | pool/sqlite_backend.go:237-250 | a first selectable row in the ORDER BY, or none is selectable |
| SqlBackends.SqliteBackend.ClaimNextTask | pool/sqlite_backend.go:234-264 | undisturbed, claims and re-reads a first selectable row; none exactly if nothing is selectable |
| SqlBackends.SqliteBackend.TerminateIdle | pool/engine.go:355-378 | on the SQL backend Terminate of an unregistered task succeeds on the same states, stores the same row and reports the same errors |
| SqlBackends.SqliteBackend.UpdateStatus | pool/sqlite_backend.go:284-307 | status, error, and the done time, which other states clear |
| SqlBackends.SqliteBackend.CancelBatch | pool/sqlite_backend.go:448-458 | row by row, exactly the batch's waiting rows are cancelled, and how many |
| SqlBackends.SqliteBackend.Recover | pool/sqlite_backend.go:460-473 | row by row, exactly the Running rows are re-opened and change only status, start time and error |
| SqlBackends.ReadBackExactly | pool/mysql_backend.go:435-483 | a stored MySQL task reads back unchanged if and only if it has no metadata |
| SqlBackends.MysqlBackend.Submit | pool/mysql_backend.go:95-185 | refused exactly on a stored id, otherwise the row is the submitted task without a result |
| SqlBackends.MysqlBackend.Enqueue | pool/mysql_backend.go:145-185 | a new row, or the scheduling columns of the stored one |
| SqlBackends.MysqlBackend.Start | pool/engine.go:405-432 | the same, and the row keeps the metadata although the pool's copy has lost it |
| SqlBackends.MysqlBackend.ClaimNextTask | pool/mysql_backend.go:237-278 | claims a first one of the unlocked selectable rows, and nothing exactly if every selectable row is locked |
| Ownership.StepKeepsOwned | pool/engine.go:592-813 | every step keeps exclusive ownership |
| Ownership.OwnershipIsExclusive | pool/engine.go:592-813 | in every reachable state no id is held twice, held ids are stored Running, and a stored Running id has a holder unless abandoned at the semaphore during shutdown |
| Ownership.OwnershipFromStart | pool/engine.go:592-813 | the same in every run from the start |
| Ownership.InitIsOwned | pool/engine.go:154-180 | the initial state is owned |
| Ownership.SettleWrites | pool/engine.go:709-799 | the final write changes only the held task, takes it out of Running, and queues it only as Pending |
| Ownership.SettleTouchesOne | pool/engine.go:650-799 | no final write touches another task's record |
| Ownership.StepsFollowTheGraph | pool/engine.go:343-455 | every step of every run moves every task along a lifecycle edge its kind allows; Completed is left only by Remove, Retrying never entered |
| Records.StepWritesExactly | pool/engine.go:212-870 | what every step of every run makes of every record, column by column, and of the sets of stored and queued ids |
| Records.PayloadSurvivesRuns | pool/engine.go:738-756 | no run changes kind, data, priority, batch, retry limit or creation time of a task before it is removed, and every worker that holds it has them |
| Records.SubmittedIsCarried | pool/engine.go:212-241 | in every run from the start a task that was not removed since its submit is stored, and executed, as it was submitted |
| Records.StampedInRuns | pool/memory_backend.go:274-278 | in every run each completed or failed task has a done time |
| Records.CallsAllowedExactly | pool/engine.go:343-456 | in which states a task can be claimed, started, terminated outside a worker and removed |
| Traces.RunsAreTraced | pool/engine.go:386-707 | after every run the intent, the registry entry and the cached progress of an id are those of the last steps that concern it, exactly the delivered cancel functions were called, and the pool is stopped exactly if Stop was called |
| Traces.NothingIsDoneTwice | pool/progress.go:29-59 | in every run each flushed report reaches the backend at most once and is under way until then; likewise the tracking of each accepted submit |
| Traces.CallbacksReportExactly | pool/engine.go:845-869 | a callback lists exactly the tasks stored for its batch, each in its stored state, and is made unless there are none; no other step calls back |
| Traces.UncountedInRuns | pool/engine.go:298-311 | without a batch callback nothing is counted and nobody is called back, in any run |
| Signals.StepKeepsControlled | pool/engine.go:638-648 | every step keeps registry entries backed, tokens unique and picked-up cancellations signalled |
| Signals.ControlHoldsInRuns | pool/engine.go:386-397 | the same in every run |
| Signals.StoppingStep | pool/engine.go:699-735 | a cancelled execution before its check stays so until the check, which finds the last writer's signal |
| Signals.SentencedStep | pool/engine.go:709-735 | its write stores exactly the recorded intent and the old retry count |
| Signals.StopIsHonoured | pool/engine.go:699-735 | in every continuation such an execution makes no write before its check, the check finds a signal, and its next write stores the status recorded last by then with the old retry count: it is never retried, failed or completed |
| Signals.SentencedRuns | pool/engine.go:709-735 | in every continuation the next write of an execution past its check stores the recorded intent |
| Signals.CancelBeforeRecordRetries | pool/engine.go:386-395 | with the two steps swapped a failing execution is retried and its signal left over; in the source's order it is stopped |
| Signals.UnknownTypeIgnoresStop | pool/engine.go:650-665 | a signalled task of unknown type fails and its signal stays |
| Signals.SignalIsHeededExactly | pool/engine.go:386-397 | in every run in which the execution comes to its end, its check takes an accepted signal if and only if the check was still ahead when the call was accepted |
| Signals.LateSignalIsIgnored | pool/engine.go:702-735 | in every continuation the next write of an execution past its check is made with the verdict it had, and the signal outlives it |
| Signals.SignalStaysInRuns | pool/engine.go:702-707 | a signal stays as long as nobody checks its id |
| Signals.LateSignalHitsTheNextExecution | pool/engine.go:702-707 | in every run the first check on a signalled id takes the signal and stops its execution |
| Signals.UnlistHidesExactly | pool/engine.go:643-648 | of all steps, exactly another worker's unregistration of the same id hides a reachable execution |
| Signals.ReachableExactly | pool/engine.go:638-648 | in every run an execution that has not written its outcome is reachable if and only if no other worker has unregistered its id since |
| Signals.HiddenStaysInRuns | pool/engine.go:643-648 | a hidden execution stays hidden |
| Signals.OwnEntriesInRuns | pool/engine.go:638-648 | in every run a registered holder owns the entry of its id, if there is one |
| Signals.StopReachesTheHolder | pool/engine.go:386-397 | a call accepted on a held id picks up the holder's own cancel function if and only if the holder has registered; otherwise that of a worker that has already written |
| Signals.StopIsRefusedExactly | pool/engine.go:386-397 | on a task stored as Running StopTask is refused exactly if its holder is not reachable and no finished worker's entry is left; a stored Running task without a holder is an abandoned one |
| Signals.SequentialRegistryIsExact | pool/config.go:102-105 | with one worker the registry holds exactly the registered execution, in every run |
| Signals.ControlFromStart | pool/engine.go:386-397 | in every run from the start registry, tokens, signals and own entries are in order |
| Signals.SequentialFromStart | pool/config.go:102-105 | in every run of a pool with one worker the registry is exact |
| Capacity.StepKeepsMetered | pool/engine.go:612-625 | every step keeps semaphores, limits and gauges exact |
| Capacity.LimitsHoldInRuns | pool/engine.go:612-625 | in every run the workers of a type past its semaphore stay within its limit, and each gauge is the number of workers in its section |
| Capacity.LimitsFromStart | pool/engine.go:612-625 | the same in every run from the start |
| Capacity.GaugesSumToWorkers | pool/metrics.go:57-60 | the gauges of distinct types sum to at most the number of workers |
| Capacity.NoWorkerDeadlock | pool/engine.go:612-620 | with positive limits, some worker can step while not all are idle |
| Activity.HandlerRunsAreBounded | pool/engine.go:740-774 | in every run, stopped or not, an activation runs its handler at most max(0, MaxRetries - initial retries) + 1 times |
| Activity.BoundedInRuns | pool/engine.go:740-774 | the invariant behind it, over every run |
| Attempts.StepKeepsAttemptsExact | pool/engine.go:740-756 | each step keeps the number of handler calls equal to the retries used since the activation, plus one in an execution whose handler was called |
| Attempts.ReachedInRuns | pool/engine.go:650-774 | the same in every run |
| Attempts.OpenedTaskGetsItsAttempts | pool/engine.go:405-432 | in every run from the start, a submitted or restarted task gets at most max(0, MaxRetries - base) + 1 handler calls until it is opened again, with base zero unless it was paused; a failed, unstopped execution gives up if and only if they are used up |
| Activity.WorkerStepDescends | pool/engine.go:573-590 | every worker step lowers the measure of remaining retries and phases |
| Activity.WorkersComeToRest | pool/engine.go:573-590 | without API calls a run has at most as many steps as the measure |
| Activity.RestIsExactly | pool/engine.go:573-590 | no worker can step if and only if all are idle and no queued task is due at any time |
| Activity.ShutdownStopsNoClaim | pool/memory_backend.go:170-211 | stopping the pool changes no claim a worker in Dequeue can make |
| Pauses.StepStalesExactly | pool/engine.go:712-726 | a step keeps all paused tasks and all tasks being paused with their last report if and only if it is not a report of another value for one, or the late arrival of one |
| Pauses.PauseIsFreshExactly | pool/engine.go:712-726 | from the reading of the cache to the status, over every run: the task is paused with its last report if and only if the last value reported is the last one written, the pause's own flush included |
| Pauses.PausedFreshInRuns | pool/progress.go:18-59 | in every run from the start without such a step each paused task is stored with its last reported progress |
| Pauses.PauseSurvives | pool/engine.go:405-427 | each step keeps the retries and, but for reports that arrive, the progress of a paused or continued task; a claim gives the worker both and the stored metadata |
| Pauses.PauseSurvivesRuns | pool/engine.go:405-427 | in every run that does not give the task up, the first claim is made with the progress written by then, the old retry count and the metadata then stored |
| Pauses.RetryKeepsExactly | pool/engine.go:740-756 | an accepted retry keeps stored progress and metadata if and only if they equal the worker's copy |
| Pauses.HeldFieldsFollowRuns | pool/engine.go:517-522 | while a task is held only arriving reports, its pause's flush and metadata saves change its progress and metadata |
| Pauses.RetryKeepsRunsExactly | pool/memory_backend.go:107 | from claim to retry over every run: both are kept if and only if the last progress written and the last metadata saved are the claimed values |
| Activity.SubmitStrandsExactly | pool/engine.go:231-241 | Submit leaves a stranded Pending record if and only if its Enqueue is refused and it is not scheduled |
| Activity.CancelBatchStrandsExactly | pool/memory_backend.go:389-396 | CancelBatch strands exactly the queued Pending tasks of other batches |
| Activity.StrandedIsNeverClaimed | pool/engine.go:405-414 | in every run a stranded task is not claimed until it is given up |
| Batches.StepKeepsBatch | pool/engine.go:817-870 | every undisturbing step keeps counter, finals and firings exact |
| Batches.BatchInvInRuns | pool/engine.go:817-870 | the same over every run |
| Batches.BatchFiresExactlyOnce | pool/engine.go:817-870 | total minus done is the number of uncounted members less those untracked; one callback is made or pending exactly when all are counted; it lists all members, all final |
| Batches.RestedBatchHasFired | pool/engine.go:841-869 | at rest with every member final the callback was made once |
| BatchLeaks.StepKeepsBalance | pool/engine.go:298-311 | every step keeps: total + untracked + restarted = done + missed + dropped + open activations |
| BatchLeaks.BalanceInRuns | pool/engine.go:817-843 | the same over every run whatsoever |
| BatchLeaks.RestedCountLeaksExactly | pool/engine.go:837-843 | at rest total minus done is missed + dropped - restarted: the completion condition holds if and only if losses do not exceed restarts |
| BatchLeaks.CountCallsBackExactly | pool/engine.go:837-843 | in every reachable state a count calls back if and only if the activations still open and those lost are made up for by restarts and untracked submits |
| BatchLeaks.StepAddsNoCall | pool/engine.go:837-869 | no step decides a callback while the batch is short |
| BatchLeaks.ShortBatchStaysSilent | pool/engine.go:837-843 | the same over every run without starts and submits to the batch |
| BatchLeaks.EarlyCountIsMissedExactly | pool/engine.go:234-245 | a count before its submit is tracked leaves the same counter if and only if the batch had one before, and then sees one task too few |
| Accounting.CountersInRuns | pool/engine.go:655-659 | in every run without control calls the counters are the sizes of the matching parts of the table |
| Accounting.SubmissionsAreConserved | pool/engine.go:243-246 | submissions counted or about to be counted equal completed + failed + pending + delayed + running |
| Accounting.StepCountsExactly | pool/engine.go:709-800 | control calls included: a write counts as a completion if and only if it stores Completed, as a failure if and only if it stores Failed; tracked submits are counted, and nothing else is |
| Accounting.CountersCountEndings | pool/engine.go:655-800 | over every run the counters grow by the executions ended as Completed and as Failed, and by the tracked submits |
| Progress.FlushesAreSpaced | pool/progress.go:29-37 | flushes of a task are at least the throttle apart over every run of calls |
| Progress.StoredWasReported | pool/progress.go:47-59 | what is stored was stored before or reported by some call |
| Progress.LatestIsStoredExactly | pool/progress.go:26-59 | the cache holds the latest report; the backend does if and only if it was flushed and accepted or stored anyway |
| Progress.ReportIsWrittenExactly | pool/progress.go:29-66 | a report is written if and only if there is no throttle, no flush before it or at least the throttle since the last flush, and the backend takes it; cache, flush time and metric as well |
| Progress.StoredLagsOnlyTheInterval | pool/progress.go:29-59 | over every run of accepted calls the stored value is a report with all later ones made within the interval after it, or all reports were that close to the flush before the run |
| Progress.StoredIsRecent | pool/progress.go:29-59 | the same from the empty book, for every reported task |
| Progress.LastReportIsDropped | pool/config.go:50-54 | a last report within the interval stays unwritten whatever the other tasks report |
| Progress.ProgressTracker.SetProgress | pool/progress.go:18-71 | flushes unless the throttle has not passed since the last flush, stores exactly a flushed and accepted value, and the whole new state |
| Progress.ProgressTracker.Snapshot | pool/progress.go:75-83 | the latest value of every reported id |
| Metrics.TotalBumped | pool/metrics.go:39-55 | bumping one type's counter adds the same to the sum over types |
| Metrics.BumpedExactly | pool/metrics.go:39-60 | bumping moves the counter of one type, from nothing if need be, and no other |
| Metrics.QuotTruncates | pool/metrics.go:144-147 | an average is rounded toward zero |
| Metrics.AverageTruncatesOnce | pool/metrics.go:144-147 | the average over whole milliseconds is total nanoseconds divided by a million times the count, truncated once |
| Metrics.Metrics.constructor | pool/metrics.go:28-37 | all counters zero |
| Metrics.Metrics.IncSubmitted | pool/metrics.go:39-43 | global and per-type counter bumped together; each global counter stays the sum of its types |
| Metrics.Metrics.IncCompleted | pool/metrics.go:45-49 | likewise for completions |
| Metrics.Metrics.IncFailed | pool/metrics.go:51-55 | likewise for failures |
| Metrics.Metrics.AddRunning | pool/metrics.go:57-60 | the gauge of one type moves by the delta |
| Metrics.Metrics.AddLatency | pool/metrics.go:62-77 | sum and count of one type, created on first use |
| Metrics.Metrics.IncProgressUpdates | pool/metrics.go:79-81 | one more progress update |
| Metrics.Metrics.StatsOf | pool/metrics.go:129-157 | one type's counters and its average, truncated once |
| Metrics.Metrics.CollectStats | pool/metrics.go:121-158 | exactly the types with a counter, each with its statistics |
| Metrics.Metrics.Snapshot | pool/metrics.go:112-161 | the globals equal the sums over types; exactly the types with a counter are listed, with their averages truncated once |
| Execution.SettleGivesOutcome | pool/engine.go:709-799 | the final write's outcome by intent, handler result, retries left and acceptance |
| Execution.PreparedEffect | pool/engine.go:712-724 | reading and flushing touch nothing but the worker and, for a pause, the stored progress, which becomes the cached one |
| TaskPool.TaskPool.constructor | pool/engine.go:87-180 | the initial state of the transition system over an empty memory backend |
| TaskPool.TaskPool.Submit | pool/engine.go:212-254 | succeeds exactly when the queue accepts and performs both halves; a refusal performs the first half, with the error |
| TaskPool.TaskPool.SaveAndEnqueue | pool/engine.go:231-241 | performs the first half of Submit |
| TaskPool.TaskPool.TrackSubmit | pool/engine.go:243-246 | performs the second half |
| TaskPool.TaskPool.TrackBatch | pool/engine.go:298-311 | the batch total grows by one, from nothing to one for a new batch |
| TaskPool.TaskPool.RecordIntent | pool/engine.go:386-397 | succeeds exactly on a registered id; performs the signal step and picks up its cancel function |
| TaskPool.TaskPool.StopTask | pool/engine.go:386-398 | succeeds exactly on a registered id; intent first, then the cancel function; otherwise not running and nothing changed |
| TaskPool.TaskPool.Terminate | pool/engine.go:343-379 | succeeds exactly on registered, waiting, paused and failed tasks; the whole new state in each case and the error otherwise |
| TaskPool.TaskPool.TerminateIdle | pool/engine.go:355-378 | succeeds exactly on waiting, paused and failed tasks, with the error otherwise |
| TaskPool.TaskPool.Start | pool/engine.go:405-432 | succeeds exactly on startable tasks the queue accepts, which lose schedule, times, error and, unless paused, retries; the error otherwise |
| TaskPool.TaskPool.Remove | pool/engine.go:443-456 | succeeds exactly on stored tasks that are not running; performs the remove step |
| TaskPool.TaskPool.CancelBatch | pool/engine.go:464-478 | performs the batch cancellation step and returns how many tasks it cancelled |
| TaskPool.TaskPool.Take | pool/engine.go:579 | claims a claimable task or there is none |
| TaskPool.TaskPool.RejectUnknown | pool/engine.go:650-665 | fails a task of unknown type |
| TaskPool.TaskPool.CheckIntervention | pool/engine.go:702-707 | consumes the signal and decides the outcome, the signal first |
| TaskPool.TaskPool.ReadCache | pool/engine.go:714-720 | a pause's first region performs its step |
| TaskPool.TaskPool.FlushCached | pool/engine.go:721-724 | its second region performs its step |
| TaskPool.TaskPool.Prepare | pool/engine.go:709-724 | a pause reads and flushes before its final write, nothing else does |
| TaskPool.TaskPool.Retry | pool/engine.go:741-773 | enqueues the worker's copy with one more retry, or fails the task; `Records.StepWritesExactly` says what becomes of the record |
| TaskPool.TaskPool.Settle | pool/engine.go:709-799 | the store after the final write: a retry falls back to Failed, success stores the result before the status |
| TaskPool.TaskPool.Record | pool/engine.go:709-799 | the final write with its counters; a retry is not counted for the batch |
| TaskPool.TaskPool.Tally | pool/engine.go:759-800 | the counters by outcome; `Accounting.StepCountsExactly` says which writes count |
| TaskPool.TaskPool.CountBatch | pool/engine.go:817-843 | counts the task and decides whether to call back |
| TaskPool.TaskPool.FireBatch | pool/engine.go:845-869 | calls back with the batch's stored statuses unless there are none |
| TaskPool.TaskPool.Report | pool/progress.go:18-59 | for any id, caches the progress and, if flushed, writes it |
| TaskPool.TaskPool.Land | pool/progress.go:47-59 | the write performs its step |
| TaskPool.TaskPool.Enter | pool/engine.go:612-625 | takes a free slot of the type and enters the gauge |
| TaskPool.TaskPool.Begin | pool/engine.go:612-642 | semaphore, gauge and registration in order |
| TaskPool.TaskPool.Conclude | pool/engine.go:650-799 | from handler to final write, for known and unknown types |
| TaskPool.TaskPool.Announce | pool/engine.go:812-870 | counts the batch and calls back if that was the last count; nothing after a retry |
| TaskPool.TaskPool.Exit | pool/engine.go:619-624 | leaves the gauge and returns the slot |
| TaskPool.TaskPool.Undo | pool/engine.go:619-648 | the deferred calls, last registered first |
| TaskPool.TaskPool.RunTask | pool/engine.go:613-813 | undisturbed, the composition of all worker steps, with the queue's acceptance as its only outside choice |
| TaskPool.TaskPool.ExecuteTask | pool/engine.go:592-813 | the same, or, for a worker waiting for a slot of a stopped pool, giving up with the task left as it is |
| Execution.ConcludedOutcome | pool/engine.go:699-799 | the task's final state by type, intent, handler result, retries left and acceptance |
| Execution.ConcludedFrame | pool/engine.go:699-799 | no other task's record changes |
| Execution.ExecutionOutcome | pool/engine.go:592-813 | an undisturbed executeTask ends by the outcome table and touches no other task |
| Execution.ExecutionRestoresMeters | pool/engine.go:612-625 | it leaves the semaphore and the gauge of every type as they were |
| Execution.ExecutionClears | pool/engine.go:638-707 | it leaves no entry of its id in the registry and, for a known type, consumes the signal |
| Execution.ExecutionCountsBatch | pool/engine.go:812-870 | it counts its batch unless retried, and calls back with the stored statuses exactly when that was the last count missing |
| Witnesses.CancelBatchLoses | pool/memory_backend.go:389-396 | a run from the empty queue in which cancelling another batch loses an accepted Pending task |
| Witnesses.RecoverLoses | pool/memory_backend.go:468-487 | a run in which Recover leaves a task Pending with no item |
| Witnesses.DeleteBreaksMirror | pool/memory_backend.go:78-85 | a run in which Delete leaves an item behind |
| Witnesses.LeftoverFillsQueue | pool/memory_backend.go:81-105 | a run that leaves an empty queue refusing everything |
| Witnesses.ResaveLosesWakeup | pool/memory_backend.go:98-107 | a queued id saved again on a full queue: a dequeuer sleeps past a ready task |
| Witnesses.EmptyQueuePolls | pool/memory_backend.go:186-193 | an empty queue gives a nap of no length |
| Witnesses.BackendsDiffer | pool/sqlite_backend.go:239 | a task claimable in SQL and not in memory, and one the other way round |
| Witnesses.LockedClaimOutOfTurn | pool/mysql_backend.go:247-253 | a claim that passes over a better locked row |
| Witnesses.MysqlLosesMetadata | pool/mysql_backend.go:435-483 | a task read back without its metadata |
| Witnesses.RefusedSubmitStrands | pool/engine.go:231-241 | a run that reaches a stranded record which Start refuses |
| Witnesses.CancelBatchStrands | pool/memory_backend.go:389-396 | a run in which cancelling batch 1 strands a task of batch 2 |
| Witnesses.StoppedPoolStillClaims | pool/memory_backend.go:170-211 | a run in which a stopped pool can claim a task |
| Witnesses.SwapHasARun | pool/engine.go:386-395 | a run to the situation in which the swapped steps retry a stopped task |
| Witnesses.RetryLosesCheckpoint | pool/engine.go:517-522 | a run in which a retry erases saved metadata and progress |
| Witnesses.LateReportStales | pool/progress.go:29-37 | a run after which a paused task's stored progress is not its last report |
| Witnesses.ReportDuringPauseIsLost | pool/engine.go:714-726 | a run in which a report between the pause's reading and its flush is overwritten for good |
| Witnesses.OlderReportLandsLast | pool/progress.go:29-59 | a run in which the older of two concurrent reports ends up in a paused task |
| Witnesses.UnknownTypeIgnoresStop | pool/engine.go:650-665 | a run in which a stopped task of unknown type fails and the intent is left over |
| Witnesses.UnlistHides | pool/engine.go:643-648 | a run to a registered, running execution that StopTask refuses |
| Witnesses.LateSignalPausesTheNext | pool/engine.go:702-707 | a run in which a successful execution nobody asked to stop is stored as Paused |
| Witnesses.EarlyCountIsMissed | pool/engine.go:234-245 | a run to rest with the only task completed, no callback and one task missing from the count |
| Witnesses.UntrackedSubmitIsReportedPending | pool/engine.go:234-245 | a run whose callback lists a queued task as Pending |
| Witnesses.RefusedSubmitIsReportedPending | pool/engine.go:845-869 | a run whose callback lists a stranded record as Pending |
| Witnesses.TerminatedMemberSilencesBatch | pool/engine.go:355-358 | a run to rest with all tasks final and no callback |
| Witnesses.LateSubmitCallsBackTwice | pool/engine.go:837-869 | a run with two callbacks of one batch |

## Left out

- Drivers, DSNs, connection pools, table creation, driver errors and JSON: foreign calls; each statement is its effect on a row table.
- Timestamps as text: SQLite compares times in the text form of RFC 3339 (section 5.6), which need not be chronological; the model compares integers.
- Ids: generated ids are taken to be fresh. The refinement of the simple store does not cover ids reused after Delete, or SubmitTask with an id that is stored already or with a preset status or retry count.
- Error texts, logging, payload encoding, and task timeouts other than as handler failures.
- User callbacks other than batch completion, and the per-task contents of that callback other than statuses.
- Integer width: counters, latencies and priorities do not wrap at 64 bits.
- Handle: handlers and limits are fixed before the run, so re-registration, which replaces a semaphore, is not modelled.
- Atomic API calls: Start, Remove, CancelBatch and Terminate on a task that is not running are one step each, although the source takes the backend's lock several times in them. So are Submit's Save and Enqueue, the two counters of a tracked submit, a retry's Enqueue and the status write after its refusal, and result, status and counters of a final write; and in SQL, Enqueue's read and write and a claim's UPDATE and re-read.
- TaskPool.TaskPool.SaveAndEnqueue: Save and Enqueue are one step, as above.
- TaskPool.TaskPool.TerminateIdle: three separately locked regions are one step, as above.
- TaskPool.TaskPool.Terminate: a task that becomes registered between the two parts of the call is not modelled.
- MemoryBackend.MemoryBackend.Dequeue: one round under the lock; the loop around it, the timeout and the context are left out.
- Waiting: the loops around one dequeue round (channels, timers, polling interval, DequeueTimeout), fairness and scheduling.
- The engine over SQL: the transition system runs over the memory backend's store; the SQL backends have a claim machine of their own.
- SQL listing and counting queries, and MySQL's Remove, Recover, UpdateStatus, UpdateProgress, UpdateResult, UpdateMetadata and CancelBatch, which are the same statements as SQLite's.
- Row locks: which rows other MySQL transactions have locked is an arbitrary set at each claim, not the result of their steps.
- Listing with pagination, Pause and Resume (empty), configuration merging, the backend registry.
- Stop's wait for the workers and its closing of the backend; only the cancellation of the pool is a step.
- Pointer identity: entries of the progress cache and batch counters are map values, and a worker's locals are its entry in the field `workers`.
- Activity.RestIsExactly: a worker that exits after the pool was stopped counts as idle and able to claim, so for a stopped pool the lemma says nothing about tasks that become due after the exits.
- Batches.BatchFiresExactlyOnce: one way, for batches whose submits are all tracked before the first count and whose members are not restarted, withdrawn, removed or refused; for all other runs `BatchLeaks` says exactly when a count calls back, but not what the callback lists.
- Progress.ProgressTracker.SetProgress: one call is one step here; that concurrent calls can reach the backend in another order is modelled in `Engine` (DoReport, DoLand), without the throttle's clock.
- Metrics.Metrics.CollectStats: reads all types at one instant.
- Metrics.Metrics.Snapshot: reads everything at one instant, while the source reads counter by counter.
