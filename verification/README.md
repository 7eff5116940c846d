# Autback control plane: a Dafny model

Autback runs jobs and image builds on one worker. A SQLite table, `control_queue`,
carries every operation through
`queued -> admitting -> active -> terminalizing -> cleaning -> released`, with one
back edge `admitting -> queued`; the job and build records change in the same
transactions. The dispatcher, the cleanup coordinator, the reconciler, the API
handlers and the capacity emergency drive the table concurrently, and the process
may die between any two transactions.

This project models that protocol and proves what it promises over whole runs. It
also models the other parts of the repository whose correctness is not obvious from
their code: the wake-up flags of the two background workers, the capacity controller, the resource
manager, the streaming secret redactor, the `glob` matcher, the resumable log stream,
keyset pagination, telemetry roll-up, the console's optimistic snapshot and the
sliding-window limiter.

`dafny verify dfyconfig.toml` checks everything.

## How it is organised

| module | content |
|---|---|
| `Control`, `Transactions` | the rows and records, and each store transaction as a function from database to result |
| `Lease`, `History`, `Exact` | the lease invariant, the shape every transaction has, what never changes again, the exact caller obligations and the exact index violations |
| `Store` | the control store as an object: every method is proved to be its transaction |
| `Protocol`, `ProtocolProofs`, `Runs` | dispatcher, callers, reconciler, coordinator and crashes as actions; the theorems over whole runs, most of them over every run, at-most-once, creation with the digest and the job coupling each over the runs that meet its own condition |
| `Effects` | what each transaction writes and exactly when it is refused; over whole runs, which transaction every verdict, digest, flag, acceptance time and claim count comes from |
| `Races` | that the condition of each of those three theorems is exactly what it needs, and the failing runs from the empty store |
| `Leaks`, `Removals`, `Holding`, `LeakProofs`, `LeakRace` | the same runs with the worker's resources: baselines, inventories and removals; what cleanups spare, in every run; leak freedom, and that its condition is exact |
| `Reclaim` | the capacity round placed in a run |
| `Coordinator`, `Admission` | the cleanup worker and the admission worker as lock sections, every interleaving of them |
| `Resources`, `Capacity`, `Redactor`, `Glob`, `LogStream`, `Pagination`, `Rollup`, `Snapshot`, `Limiter` | one component each |
| `Order`, `Sequences`, `Wrappers` | orders and sorting, bytes, options |

### How runs are modelled

The store has a single connection, so a transaction is one atomic step. A state of
the run is the database, the place of the dispatcher, the jobs the reconciler has listed
as scheduled, the calls that API handlers, the reconciler and the coordinator have
decided on but not yet issued, two logs (jobs passed to the scheduler, admissions) and the
last heartbeat of each operation. A call that depends on an earlier read of its
caller is first decided, in a state where that read allows it, and issued at any later
time; the reconciler decides on a job only after it has listed it. A crash forgets the
dispatcher's place, the listing and every decided call and keeps the
database. Schedulers, Docker, clocks and digests are free parameters of the actions.

Finality of records, FIFO, the build coupling, the heartbeats, the reclaim exclusion and
removal safety (no cleanup takes a resource of its operation's first baseline, or one that
was there from the start) hold in every run. Four theorems need a condition on the calls
from outside the dispatcher, each its own, and each condition is exact: in every state of
a run that has kept it so far, a call meets it if and only if the theorem survives every
continuation that keeps it. Three of the conditions are about the read window, between the
acquisition of a job that is still preparing and the dispatcher's read of its record.

- At-most-once holds in *unrushed* runs: no start lands in the window
  (`Races.OnceIsExact`). Cancellations, failures, cleanups and verdicts may come at any time: the
  runs of `Races.FinishInReadWindow`, `Races.LostAfterRequeue`, `Races.SweepAfterStart` and
  `Races.AuditFailureRun` create no job twice.
- Creation with the root digest committed holds in *uncut* runs: no cancellation and no
  failure lands in the window (`Races.DigestIsExact`). Starts there do not hurt it.
- The coupling of jobs with their rows holds in *guarded* runs: no start and no
  cancellation lands in the window; no `lost` verdict of the reconciler comes for a row that has
  left the lease since the job was listed; and no cleanup for an open row whose job is not
  finished, which two callers can request because they do not look at the record
  (`Races.CouplingIsExact`). A failure in the window does not hurt it.
- Leak freedom holds in *undisturbed* runs: until an acquired job is created, nobody starts it
  before its record is read, fails it, declares it lost or requests its cleanup (the
  reconciler's admission grace, `internal/control/reconciler/reconciler.go:134-136`, aims
  at that), and nobody cancels it before its record is read once its row is torn down
  (`LeakRace.UndisturbedIsExact`). In a disturbed run something may be left behind; nothing
  that was there is taken (`Removals.InitialIsSpared`).

The failing runs are
reached from the empty store: `Races.StartInReadWindow`, `Races.FinishInReadWindow`,
`Races.StartDecouples` and `Races.CancelDecouples` with `Races.ReadWindowIsReachable`;
`Races.LostAfterRequeue`, `Races.SweepAfterStart`, `Races.AuditFailureRun`; and, from an
arbitrary initial inventory, `LeakRace.LeakIsReachable` and
`LeakRace.StartLeakIsReachable`. Up to the call that fails they meet all of the first
three conditions.

Preparing an operation may fail before or after its baseline is saved, because the
secrets are prepared after the resources (`cmd/autback-server/main.go:129-132`); the
operation is then admitted again with its first baseline (`Runs.FirstBaselineKept`,
`Races.ReadmissionIsReachable`).

### Where code and intention differ

- `BeginOperationCleanup` trusts its callers: from an open row it starts the teardown
  whatever the record says. `Exact.GuardIsExact` states the obligation exactly. Two
  callers do not meet it. The audit-failure path of `PrepareJob`
  (`internal/control/controlapi/server.go:402-408`) ignores the error of `FailJob`, which
  aborts exactly when the worker is reserved (`Races.AuditFailureIsExact`), and releases
  anyway (`Races.AuditFailureRun`). The sweep of stale preparations
  (`internal/control/reconciler/reconciler.go:75-84`) releases a job after a cancellation
  that only flagged it, when it was started since it was listed (`Races.SweepAfterStart`).
- `SyncJob` writes the remote verdict into a record whatever the row's state is; the
  same lemma gives the exact condition under which record and row stay coupled.
- `RequeueAdmittingOperation` clears a build's lease time, so the stale-build query falls
  back to the acceptance time (`Runs.BuildHeartbeatDecides`): a build acquired and renewed
  after the cutoff can be listed as stale (`Races.RequeueForgetsBuildLease`). Preparing
  jobs keep their heartbeat (`Runs.HeartbeatDecides`).
- Some writers of a teardown row return without waking the coordinator: `CancelBuild` and
  `FinishBuild` when their audit event cannot be written
  (`internal/control/controlapi/server.go:805-812`, `:837-844`), `PrepareBuild` in the same
  case (`:731-735`), and the capacity emergency always
  (`cmd/autback-server/main.go:577-607`). Such a record can be left with no worker and no
  wake-up to come (`Coordinator.AbandonedIsReachable`), and stays so until something else
  advances the coordinator (`Coordinator.StuckUntilWoken`); nothing does so periodically.
- The capacity controller can reach its second reclaim without having asked whether the
  worker is busy exactly when the soft floor is below the hard floor, which an ordered
  policy excludes unless the 64-bit product wraps (`Capacity.SkippedOnlyOutOfOrder`). It
  can admit on a final measurement that failed exactly for disks whose soft floor is zero
  and that can be under hard pressure (`Capacity.BlindExactly`); the default policy has none.
- `glob` agrees with the meaning of `*` and `?` for all patterns exactly on values without
  a literal `*` (`Glob.GlobIsExact`).

## Model

| member | source | states |
|---|---|---|
| `Runs.AtMostOnce` | internal/control/dispatcher/dispatcher.go:225-301 | in every unrushed run, whatever crashes, cancellations, failures, cleanups and verdicts: the scheduler's Create is never called a second time for a job, and afterwards its row is never queued again |
| `Runs.CreatedWithDigest` | internal/control/dispatcher/dispatcher.go:225-301 | in every uncut run, Create is called only for a job whose root digest is committed; it is the digest an earlier start was called with, and it never changes |
| `Runs.DigestOrigin` | internal/control/sqlite/store.go:1325-1351 | in every run, a job's digest is the one given to an earlier start of that job |
| `Runs.NoOvertaking` | internal/control/sqlite/store.go:1626-1687 | in every run, when an operation is admitted every older one is already released and stays released, and later admissions are never of older operations |
| `Runs.AdmissionsInOrder` | internal/control/sqlite/store.go:1626-1666 | admissions over every run follow the queue's sequence, despite the requeues in between |
| `Runs.JobCoupling` | internal/control/sqlite/store.go:1422-1505 | in every state of a guarded run a job's status fits its row: preparing, queued, running and terminal statuses allow only their row states, with (cancelled, admitting) the single exception |
| `Runs.BuildCoupling` | internal/control/sqlite/store.go:2045-2087 | in every state of every run a build is queued iff its row is queued or admitting, running iff active, terminal iff in teardown or released; at most one build is accepted as active |
| `Runs.RunSettles` | internal/control/sqlite/store.go:1422-1505 | between any two points of any run: terminal records, committed digests, released rows and saved baselines do not change, no row disappears or changes its operation, and the logs only grow |
| `Runs.FirstBaselineKept` | internal/operation/cleanup/resources.go:63-81 | however often an operation is admitted again in a run, its first baseline is the one kept and no later preparation saves another |
| `Runs.RunHolds` | internal/control/dispatcher/dispatcher.go:225-301 | every state of every run satisfies the invariant that needs no care from callers: unique keys, one reservation, FIFO, build coupling, admission order, heartbeats |
| `Runs.RunOnce` | internal/control/dispatcher/dispatcher.go:225-301 | every state of an unrushed run satisfies the invariant of at-most-once |
| `Runs.RunReady` | internal/control/dispatcher/dispatcher.go:225-301 | every state of an uncut run satisfies the invariant of creation with the digest |
| `Runs.RunFits` | internal/control/sqlite/store.go:1422-1505 | every state of a guarded run satisfies the invariant of the job coupling |
| `Runs.HeartbeatDecides` | internal/control/sqlite/store.go:2024-2043 | in every run a preparing job is listed stale iff its last creation, acquisition or renewal is older than the cutoff and its row still waits, which in a guarded run it always does |
| `Runs.BuildHeartbeatDecides` | internal/control/sqlite/store.go:1996-2022 | in every run an unfinished build is listed stale iff its last acquisition or renewal since its last requeue, or without one its acceptance, is older than the cutoff |
| `Races.RequeueForgetsBuildLease` | internal/control/sqlite/store.go:1677-1687 | a run from the empty store in which a build acquired and renewed at or after the cutoff is listed stale, because a requeue forgot both |
| `Runs.ReclaimExcludesExecution` | internal/control/sqlite/store.go:1670-1675 | in every run, from a state in which the worker is reported idle, as long as no acquisition happens, nothing is admitting or active |
| `Effects.VerdictOrigin` | internal/control/sqlite/store.go:1422-1505 | in every run, a finished job's whole record is what one earlier transaction wrote when it ended the job: a report with that status, exit code, finish time and flag, a cancellation, a failure with exit code 1, or the emergency with 137 |
| `Effects.BuildVerdictOrigin` | internal/control/sqlite/store.go:2045-2072 | in every run, a finished build's record is the status, exit code and time of one earlier finish, or the emergency's cancellation with 130 |
| `Effects.FlagOrigin` | internal/control/sqlite/store.go:1449-1477 | in every run, a job marked for cancellation was cancelled, stopped by the emergency, or reported so |
| `Effects.AcceptanceOrigin` | internal/control/sqlite/store.go:1306-1323 | in every run, a row's acceptance time is that of the creation of its operation |
| `Effects.AttemptsCountClaims` | internal/control/sqlite/store.go:1744-1777 | in every run, restarts included, a row counts the claims of its cleanup |
| `Effects.RefusedExactly` | internal/control/sqlite/store.go:1325-1505 | every transaction is refused exactly in the stated states of its operation and record, with the stated error, and then changes nothing |
| `Effects.SyncRecords` | internal/control/sqlite/store.go:1422-1447 | a report on an unfinished job leaves exactly the reported status, exit code, finish time and flag, keeps the digest and touches no other job |
| `Effects.StartRecords` | internal/control/sqlite/store.go:1325-1351 | a start that is not refused commits the digest it was given and puts the row back into the queue |
| `Effects.CancelRecords` | internal/control/sqlite/store.go:1449-1477 | a cancellation always sets the flag, and ends the job iff it is preparing, or queued and not executing |
| `Effects.SuccessActivates` | internal/control/dispatcher/dispatcher.go:270-301 | a created job becomes active with its record as it was |
| `Effects.FailureEnds` | internal/control/dispatcher/dispatcher.go:250-301 | a failed creation or a hopeless preparation ends the job with exit code 1 and leaves its row to the cleanup |
| `Effects.EndedContextLeaves` | internal/control/dispatcher/dispatcher.go:270-301 | a creation cut short by the end of the process leaves record and row as they were |
| `Effects.NothingInFlight` | internal/control/dispatcher/dispatcher.go:225-301 | after a crash nothing happens but calls without an earlier read, new listings and decisions, and admissions |
| `Reclaim.ReclaimsFindIdleWorker` | internal/capacity/controller.go:132-260 | a capacity round placed anywhere in any run, its answers about the worker true when given and no acquisition while it lasts: at each of its reclaims no operation is admitting or active |
| `ProtocolProofs.StepRuns` | internal/control/reconciler/reconciler.go:68-163 | every action of dispatcher, callers, reconciler, coordinator and crash keeps the invariant of every run |
| `ProtocolProofs.StepOnce` | internal/control/dispatcher/dispatcher.go:225-301 | every unrushed action keeps the invariant of at-most-once |
| `ProtocolProofs.StepReady` | internal/control/dispatcher/dispatcher.go:225-301 | every uncut action keeps the invariant of creation with the digest |
| `ProtocolProofs.StepFits` | internal/control/reconciler/reconciler.go:68-163 | every guarded action keeps the invariant of the job coupling |
| `ProtocolProofs.AdmissionIsNewest` | internal/control/sqlite/store.go:1626-1666 | an admitted row has only released rows before it and is not older than any admission so far |
| `Lease.TxnMoves` | internal/control/sqlite/store.go:1325-1505 | every transaction, guarded or not, keeps unique keys, the single reservation, FIFO and the build coupling, and changes the database only in one of four shapes; a guarded one also keeps every job fitting its row |
| `Lease.TxnKept` | internal/control/sqlite/store.go:1325-1505 | a transaction whose caller met its obligation keeps the whole lease invariant |
| `Exact.GuardIsExact` | internal/control/sqlite/store.go:1422-1447 | from a state with the invariant, a transaction keeps it if and only if its caller obligation holds |
| `Exact.OnlyQueuedCleanupTrips` | internal/control/sqlite/store.go:306 | the unique index aborts a transaction iff it is a failure or a cleanup request of a queued row while the worker is reserved, and then nothing changes |
| `Exact.OneActiveBuild` | internal/control/sqlite/store.go:2074-2087 | at most one build identifier is accepted as active |
| `History.ShapeSettles` | internal/control/sqlite/store.go:1422-1505 | one transaction settles the database: terminal records, digests, released rows and baselines stay |
| `History.ShapeMovesKey` | internal/control/sqlite/store.go:1626-1813 | the queue state of every operation moves only along the edges of its transaction |
| `Races.StartInReadWindow` | internal/control/dispatcher/dispatcher.go:231-249 | from any state between acquisition and read of a preparing job, a start at that point leads to a run creating the job twice |
| `Races.FinishInReadWindow` | internal/control/dispatcher/dispatcher.go:231-249 | a cancellation or a failure at that point leads to a run creating a finished job without digest |
| `Races.StartDecouples` | internal/control/dispatcher/dispatcher.go:231-249 | a start at that point leads to a run with a running job whose row waits in the queue |
| `Races.CancelDecouples` | internal/control/dispatcher/dispatcher.go:231-249 | a cancellation at that point leads to a run that puts a finished job back into the queue |
| `Races.OnceIsExact` | internal/control/dispatcher/dispatcher.go:231-249 | in every state of an unrushed run, a call from outside the dispatcher is unrushed iff every unrushed continuation after it creates each job once, and iff every one leaves created jobs out of the queue |
| `Races.DigestIsExact` | internal/control/dispatcher/dispatcher.go:231-249 | in every state of an uncut run, a call from outside the dispatcher is uncut iff every uncut continuation after it creates jobs only with their digest |
| `Races.CouplingIsExact` | internal/control/sqlite/store.go:1422-1505 | in every state of a guarded run, a call from outside the dispatcher is guarded iff in every guarded continuation after it each job's status fits its row |
| `Races.ReadWindowIsReachable` | internal/control/dispatcher/dispatcher.go:231-249 | the window is reached from the empty store by one creation and one acquisition |
| `Races.ReadmissionIsReachable` | internal/control/dispatcher/dispatcher.go:250-268 | a run in which a preparation fails after its baseline was saved and the job is admitted again with that baseline |
| `Races.LostAfterRequeue` | internal/control/reconciler/reconciler.go:119-163 | a run from the empty store in which a lost verdict on a listed job arrives after its requeue: the record is lost, the row queued |
| `Races.SweepAfterStart` | internal/control/reconciler/reconciler.go:75-84 | a run in which the sweep tears down the row of a job that was started since it was listed and is still to be run |
| `Races.AuditFailureIsExact` | internal/control/controlapi/server.go:402-408 | the failure recorded for a queued job ends it iff the worker is not reserved |
| `Races.AuditFailureRun` | internal/control/controlapi/server.go:402-408 | a run in which that failure is aborted, the handler requests the cleanup all the same, and after the worker is released the request tears down a job that is still preparing |
| `LeakProofs.LeakFreedom` | internal/operation/cleanup/resources.go:65-141 | at every point of an undisturbed run at which no reservation is held, the inventory is contained in the initial one |
| `Removals.InitialIsSpared` | internal/operation/cleanup/resources.go:83-141 | at every point of every run, disturbed or not, whatever is missing of the initial inventory vanished by other hands, and no removal names a resource that was there at the start and did not vanish since |
| `Holding.StepHolds` | internal/control/dispatcher/dispatcher.go:225-301 | every undisturbed action keeps the worker with the job about to be created, and created jobs out of the queue |
| `Removals.RemovalsSpareBaseline` | internal/operation/cleanup/resources.go:89-141 | in every run, disturbed or not, every removal of every cleaner, retried or not, is outside the first baseline saved for the operation, however often it was admitted |
| `LeakRace.UndisturbedIsExact` | internal/control/reconciler/reconciler.go:119-163 | in every state of an undisturbed run, a call from outside the dispatcher is undisturbing iff in every undisturbed continuation after it an idle worker has nothing beyond the initial inventory |
| `LeakRace.LeakIsReachable` | internal/control/reconciler/reconciler.go:119-163 | from any initial inventory, a run in which a chosen job is failed, declared lost or torn down, with a continuation that leaves a foreign resource behind |
| `LeakRace.StartLeakIsReachable` | internal/control/dispatcher/dispatcher.go:231-249 | the same for a job started before the dispatcher has read it |
| `Store.ControlStore.CreatePreparedJob` | internal/control/sqlite/store.go:1306-1323 | is the creation transaction: record, queue row at the tail, lease time set; a duplicate changes nothing |
| `Store.ControlStore.CreateBuild` | internal/control/sqlite/store.go:1580-1624 | is the creation transaction of a build, without a lease time |
| `Store.ControlStore.QueueJob` | internal/control/sqlite/store.go:1325-1351 | is the start transaction: commits the digest it is given and returns the row to the queue, or changes nothing |
| `Store.ControlStore.SyncJob` | internal/control/sqlite/store.go:1422-1447 | is the synchronization transaction: records the report as it is; never changes a terminal record |
| `Store.ControlStore.RequestJobCancellation` | internal/control/sqlite/store.go:1449-1477 | is the cancellation transaction in its three outcomes, each with the flag set |
| `Store.ControlStore.FailJob` | internal/control/sqlite/store.go:1479-1505 | is the failure transaction with exit code 1, rolled back when the index refuses it |
| `Store.ControlStore.AcquireNextOperation` | internal/control/sqlite/store.go:1626-1666 | reserves the oldest queued operation iff nothing is reserved |
| `Store.ControlStore.RequeueAdmittingOperation` | internal/control/sqlite/store.go:1677-1687 | returns an admitting row to the queue and clears its lease |
| `Store.ControlStore.ActivateOperation` | internal/control/sqlite/store.go:1689-1713 | activates row and build together or not at all |
| `Store.ControlStore.BeginOperationCleanup` | internal/control/sqlite/store.go:1718-1739 | moves an open row to teardown, is idempotent afterwards, and fails on an unknown operation |
| `Store.ControlStore.ClaimOperationCleanup` | internal/control/sqlite/store.go:1744-1777 | claims the oldest teardown, also one already being cleaned |
| `Store.ControlStore.CompleteOperationCleanup` | internal/control/sqlite/store.go:1791-1810 | releases a row in teardown, is idempotent on a released one, and refuses any other |
| `Store.ControlStore.EmergencyStopActiveOperation` | internal/control/sqlite/store.go:1815-1868 | terminates the executing operation's record, a job with exit code 137 and a build with 130, and moves its row to teardown in one step |
| `Store.ControlStore.FinishBuild` | internal/control/sqlite/store.go:2045-2072 | finishes a build once with the status and exit code given, releasing a queued row and tearing down an executing one |
| `Store.ControlStore.RenewOperationLease` | internal/control/sqlite/store.go:1967-1977 | sets the lease time of an open row and of nothing else |
| `Store.ControlStore.SaveResourceBaseline` | internal/control/sqlite/store.go:1894-1914 | the first saved baseline is the one kept |
| `Store.AffectedIsMatch` | internal/control/sqlite/store.go:1677-1687 | with unique keys the number of rows an update reports is one iff the guarded row exists |
| `Coordinator.NoLostWakeup` | internal/operation/cleanup/coordinator.go:80-168 | under every interleaving of the lock sections: at most one worker; a record whose wake-up was heard has a worker that will claim again; without a worker every record left has its wake-up to come or a writer that returned without one, and all have one to come iff there is no such writer |
| `Coordinator.AbandonedIsReachable` | internal/control/controlapi/server.go:805-812 | a record written by a caller that returns without waking anyone is left with no worker and no wake-up to come |
| `Coordinator.StuckUntilWoken` | internal/operation/cleanup/coordinator.go:80-108 | it stays so until another wake-up, its completion elsewhere, a restart or the end of the process |
| `Coordinator.ExitMeansDone` | internal/operation/cleanup/coordinator.go:134-168 | a worker that settles leaves no record whose wake-up had been heard |
| `Coordinator.QuietWorkerLeaves` | internal/operation/cleanup/coordinator.go:134-168 | a worker that finds nothing leaves unless it was woken since it last looked |
| `Coordinator.RecordsLeaveWhenDone` | internal/operation/cleanup/coordinator.go:170-199 | a record goes away iff its cleanup completes, here or elsewhere |
| `Coordinator.MoveKeeps` | internal/operation/cleanup/coordinator.go:90-199 | every lock section, claim, completion, failure and drain, and every writer that wakes or does not, keeps the wake-up invariant |
| `Coordinator.WakeState.Advance` | internal/operation/cleanup/coordinator.go:90-108 | accepts unless draining, and starts a worker exactly when none runs |
| `Coordinator.WakeState.Settle` | internal/operation/cleanup/coordinator.go:159-166 | goes on iff a wake-up is pending, otherwise stops running |
| `Coordinator.WakeState.ClearPending` | internal/operation/cleanup/coordinator.go:136-138 | forgets the pending wake-up and nothing else |
| `Admission.NoLostWakeup` | internal/control/dispatcher/dispatcher.go:105-213 | under every interleaving of lock sections, channel operations, drain and crash: at most one admission worker; an accepted wake-up that no pass has followed yet has a worker that begins one before it leaves and that the wake channel keeps from sitting out its retry delay |
| `Admission.WakeRunKeeps` | internal/control/dispatcher/dispatcher.go:105-213 | every state of every interleaving satisfies the wake-up invariant |
| `Admission.QuietWorkerLeaves` | internal/control/dispatcher/dispatcher.go:127-213 | a worker leaves after a pass unless it was woken since the pass began |
| `Admission.FailedPassIsRetried` | internal/control/dispatcher/dispatcher.go:127-213 | after a failed pass the worker begins another before it leaves, while its context lives |
| `Admission.WakeIsSpent` | internal/control/dispatcher/dispatcher.go:127-213 | a wake-up from the channel cuts one delay short and no second one |
| `Admission.WakeState.Advance` | internal/control/dispatcher/dispatcher.go:110-125 | accepts unless draining, starts a worker exactly when none runs, otherwise leaves a wake-up pending and in the channel |
| `Admission.WakeState.Settle` | internal/control/dispatcher/dispatcher.go:195-202 | goes on iff a wake-up is pending, otherwise stops advancing |
| `Capacity.Controller.RunLocked` | internal/capacity/controller.go:143-260 | the round of calls, early returns and state changes is the function that the following statements are about |
| `Capacity.ReclaimsAfterAsking` | internal/capacity/controller.go:143-260 | every reclaim follows an idle answer iff the question is not skipped |
| `Capacity.VerdictHasGrounds` | internal/capacity/controller.go:143-260 | every logged answer is one the round was given, a verdict is about the last measurement, and a failure without a verdict ends on a bad answer |
| `Capacity.VerdictIsRoom` | internal/capacity/controller.go:250-260 | a verdict fails iff its snapshot has no room; a round without one that does not fail was put off for a busy worker above the hard floor, or was a pressure round |
| `Capacity.ReclaimsWhenIdle` | internal/capacity/controller.go:159-229 | short of room with an idle worker it reclaims unless throttled; with a busy one above the hard floor it is put off |
| `Capacity.PressureIsThrottled` | internal/capacity/controller.go:199-208 | a pressure round on an idle worker is cut short iff the last one was less than the throttle ago |
| `Capacity.RoomIsEnough` | internal/capacity/controller.go:143-260 | a disk with room and no hard pressure is admitted on its first measurement, with no other call |
| `Capacity.AdmitsExactly` | internal/capacity/controller.go:143-260 | an admission does not fail iff there is room, or a busy worker is above the hard floor, or a free worker's reclaim has made room |
| `Capacity.FloorsMean` | internal/capacity/policy.go:41-46 | as long as the products fit, each floor is the greater of its percentage and its minimum, and the target is a sweep above the soft floor |
| `Capacity.InodesMean` | internal/capacity/controller.go:262-264 | as long as the products fit, a disk is short of inodes iff it counts them and the free share is below the minimum |
| `Capacity.Controller.Admit` | internal/capacity/controller.go:96-108 | reserves iff the answers are admissible, as stated for the round; on a measurement the round was given, or after a busy answer, or blindly on a final measurement that failed, exactly for the stated answers |
| `Capacity.BlindExactly` | internal/capacity/controller.go:232-251 | answers that make it reserve blindly exist for a disk iff its soft floor is zero and it has a hard floor or an inode margin |
| `Capacity.SkippedOnlyOutOfOrder` | internal/capacity/controller.go:143-260 | the busy question can be skipped iff the soft floor is below the hard one |
| `Capacity.NeverSkipped` | internal/capacity/controller.go:143-260 | it is never skipped under an ordered policy without wrap-around |
| `Capacity.HardBelowSoft` | internal/capacity/policy.go:41-46 | an ordered policy has its hard floor at or below the soft one as long as the product does not wrap |
| `Capacity.DefaultFloors` | internal/capacity/policy.go:28-46 | the default policy's floors are in order up to the last total whose product fits 64 bits, and out of order for the next one |
| `Resources.Cleanup` | internal/operation/cleanup/resources.go:89-141 | while others create and remove resources and any call may fail: with a baseline it succeeds iff its grace period was waited out, no call failed and nothing beyond the baseline is left; the calls made are none, or the removals of exactly what the first inventory answered had beyond the baseline; without a baseline it succeeds, and with an unreadable one fails, without a call |
| `Resources.RemovalsInOrder` | internal/operation/cleanup/resources.go:111-130 | those removals come services before containers before networks before volumes, none twice |
| `Resources.RemovalsAreBeyond` | internal/operation/cleanup/resources.go:111-130 | those removals name exactly the identifiers seen beyond the baseline |
| `Resources.Prepare` | internal/operation/cleanup/resources.go:65-81 | an existing baseline is kept; a new one is the normalized inventory answered; it fails iff the saved one cannot be read, or without one Docker or the store fails |
| `Resources.Difference` | internal/operation/cleanup/resources.go:150-157 | per kind: exactly the named identifiers beyond the baseline, ascending |
| `Resources.Subtract` | internal/operation/cleanup/resources.go:159-171 | exactly the nonempty identifiers not in the baseline |
| `Resources.UniqueSorted` | internal/operation/cleanup/resources.go:181-196 | exactly the nonempty identifiers, strictly ascending |
| `Redactor.RedactParts` | internal/operation/redact/writer.go:52-126 | for every split of the input into writes followed by a close, the output is one leftmost-longest pass over the whole input |
| `Redactor.Writer.Write` | internal/operation/redact/writer.go:52-71 | keeps output and pending bytes in step with that pass, holds back fewer bytes than some secret has, reports an error iff the destination failed, and refuses input after an error or a close |
| `Redactor.Writer.Close` | internal/operation/redact/writer.go:73-84 | the destination holds exactly the pass over everything written, or a prefix of it after a destination error |
| `Redactor.Writer.Process` | internal/operation/redact/writer.go:86-100 | leaves bytes pending only when a longer secret may still follow |
| `Redactor.Writer.MatchPrefix` | internal/operation/redact/writer.go:102-114 | the longest secret at the front, and whether a longer one may still complete |
| `Redactor.RedactRenders` | internal/operation/redact/writer.go:86-114 | the pass replaces exactly its spans and keeps every byte outside them |
| `Redactor.OccurrencesAreCut` | internal/operation/redact/writer.go:86-114 | every occurrence of a secret in the input overlaps a replaced span |
| `Redactor.LongestIsMaximum` | internal/operation/redact/writer.go:102-114 | the length taken is the greatest of the secrets at the front |
| `Redactor.OrderIsIrrelevant` | internal/operation/redact/writer.go:27-50 | the order of the secrets does not matter |
| `Redactor.Decided` | internal/operation/redact/writer.go:86-114 | once no secret reaches beyond the buffer, later input cannot change the match |
| `Redactor.NewRule` | internal/operation/redact/writer.go:27-50 | refuses an empty secret; otherwise keeps each secret once, longest first and then in byte order, and the first of the three replacements that contains none, or nothing |
| `Redactor.SafeReplacement` | internal/operation/redact/writer.go:128-142 | the first candidate without a secret in it, or nothing |
| `Glob.Glob` | internal/control/sqlite/store.go:2309-2334 | the four-index backtracking loop terminates and computes its recursive scan |
| `Glob.GlobIsSound` | internal/control/sqlite/store.go:2309-2334 | a positive answer is a match |
| `Glob.GlobIsExact` | internal/control/sqlite/store.go:2309-2334 | for a value, the answers agree with the meaning of the pattern for all patterns iff the value has no literal star |
| `Glob.ScanIsComplete` | internal/control/sqlite/store.go:2309-2334 | on star-free values remembering only the last star loses no match |
| `LogStream.WaitForJob` | internal/cli/service.go:894-946 | over any connections, chunkings and breaks the client's offset is the number of bytes written and these are a prefix of the log; it finishes only on a connection that ends, and one unbroken one is enough; after the end of a complete replay, the whole log |
| `LogStream.StreamJobLogs` | internal/control/controlapi/server.go:599-632 | the messages continue the log from the requested offset without gap or overlap and carry the offsets they end at; only the last one ends the stream, after the whole replay; and an unbroken one that may end does |
| `LogStream.StreamWriter.Write` | internal/control/controlapi/server.go:1244-1252 | advances the offset by what was sent, and not at all on failure |
| `LogStream.OffsetWriter.Write` | internal/control/controlapi/server.go:1259-1271 | passes on exactly the bytes past the remaining offset |
| `LogStream.Front` | internal/cli/service.go:894-946 | whatever front of a stream arrives continues the log as well |
| `Pagination.WalkPages` | internal/control/sqlite/store.go:1379-1420 | following the tokens while jobs are created: no job twice or out of order, every job of the first page's table, only the project's jobs; if the new ones are all newer, exactly the first listing, within one page more than it has jobs |
| `Pagination.PageIsNext` | internal/control/sqlite/store.go:1379-1420 | a page is the next rows in order, full when rows are left; a token exists iff rows are left and selects all of them |
| `Pagination.RefusedListing` | internal/control/sqlite/store.go:1379-1420 | a listing is refused iff the page size is out of range or the token does not decode |
| `Pagination.TokenRoundTrip` | internal/control/sqlite/store.go:2202-2229 | a page's token is accepted iff it is used in its own project and its job has a positive creation time and an identifier, and every accepted token is one the store signs for such a place |
| `Rollup.ResourceStore.AppendResourceSample` | internal/control/sqlite/resources.go:144-192 | accepts exactly the valid samples and keeps every minute's and every operation's totals right |
| `Rollup.ResourceStore.CompactResourceSamples` | internal/control/sqlite/resources.go:334-366 | refuses boundaries out of order; otherwise keeps the totals of every minute not dropped by retention, and every summary |
| `Rollup.RollUpConserves` | internal/control/sqlite/resources.go:334-366 | moving raw samples into roll-ups changes no minute's count, sums or peaks |
| `Rollup.TotalsAddUp` | internal/control/sqlite/resources.go:334-366 | a group's count is the number of its reports and its sums are the sums of what they say |
| `Rollup.PeaksAreReported` | internal/control/sqlite/resources.go:334-366 | its peaks are the greatest values its reports name |
| `Rollup.GaugesAreReported` | internal/control/sqlite/resources.go:334-366 | and so are the disk and core columns over a batch |
| `Rollup.SummaryIsReported` | internal/control/sqlite/resources.go:161-182 | a summary spans its operation's reports from the first observation to the last and names the project of the last one |
| `Rollup.GaugesAreOfLastBatch` | internal/control/sqlite/resources.go:334-366 | a roll-up's disk and core columns are those of the last batch that had samples for it |
| `Rollup.GaugesAreGreatest` | internal/control/sqlite/resources.go:334-366 | and there the greatest values of the batch |
| `Rollup.SummaryKept` | internal/control/sqlite/resources.go:161-182 | a summary holds the totals, the first and last observation and the last project of all samples ever appended for its operation |
| `Rollup.NeverForgotten` | internal/control/sqlite/resources.go:334-366 | a sample observed a minute or more after the newest retention boundary is still counted in its minute |
| `Rollup.PeaksAreGreatest` | internal/control/sqlite/resources.go:334-366 | the peaks are attained and no sample of the group exceeds them |
| `Rollup.BucketIsRecent` | internal/control/sqlite/resources.go:334-366 | a sample's bucket starts less than a minute before it, also for times before the epoch |
| `Rollup.BucketIsMinute` | internal/control/sqlite/resources.go:334-366 | buckets are whole minutes, and two times of the same sign share one iff no whole minute separates them |
| `Snapshot.TakeSnapshot` | internal/console/source.go:85-105 | a returned view equals the trigger-covered tables at every single moment of the attempt that read it; it fails iff a change was logged during each of five attempts |
| `Snapshot.AttemptIsConsistent` | internal/console/source.go:85-105 | equal revisions before and after make one moment explain all reads in between |
| `Snapshot.EqualRevisionsEqualTables` | internal/control/sqlite/changes.go:82-135 | the change counter never decreases, and equal counters mean equal covered tables |
| `Snapshot.RevisionCountsChanges` | internal/control/sqlite/changes.go:147-151 | the revision is the number of changes of covered tables and of entries logged by hand; retention never removes the newest |
| `Snapshot.ChangesAreComplete` | internal/control/sqlite/changes.go:153-171 | a reader gets every change after its revision iff it is at most the retained number and one behind |
| `Limiter.WindowLimiter.Allow` | internal/humanauth/handler.go:458-481 | refused unrecorded iff the client is new and the table is full of live clients; otherwise recorded and, while the clock has never gone back, allowed iff the full record has at most the limit in the window; the table never exceeds its maximum |
| `Limiter.WindowLimiter.Evict` | internal/humanauth/handler.go:463-468 | removes exactly the clients without a request in the window |
| `Limiter.EvictionKeeps` | internal/humanauth/handler.go:463-468 | evicting and time passing lose no live timestamp |
| `Limiter.GrantsAreBounded` | internal/humanauth/handler.go:458-481 | in any window of time a client is granted at most the limit |
| `Limiter.VerdictStands` | internal/humanauth/handler.go:473-480 | the verdict on a recorded request does not depend on later ones |

## Left out

- Limiter.WindowLimiter.Allow: agrees with the full record only while the clock never goes back; the code strips Go's monotonic reading, and after a step back the pruned times are missing.
- LogStream.WaitForJob: the end of a followed job's stream may come before its last bytes, because the follower is stopped when the job ends; the whole log is promised only for complete replays.
- Rollup.RollUpConserves: sums are exact reals, where the source adds float64 values and may round.
- The JSON and base64 form of a page token and the strength of its signature, which is a function of the cursor here.
- The length of the cleanup's grace period and its timeout: both show only as errors.
- Idempotency keys and request hashes of job and build creation.
- Error messages, worker names and the other descriptive columns of jobs, builds and queue rows.
- The emergency stop is issued while the dispatcher is idle, because both run under the capacity lock (`cmd/autback-server/main.go:577-607`).
- Progress under crashes: (cancelled, admitting) is picked up by none of the reconciler's queries, so only safety and the wake-up invariant are stated.
- Docker, Swarm, BuildKit, registry and content-store adapters, TLS, tokens, login and OAuth: foreign calls and cryptography around opaque values.
- SQL text, migrations, JSON columns, backup and restore.
- The console's pages and the command line's argument parsing.
- Host sampling and the pruning commands behind a reclaim: only their answers are modelled.
