/** Every transaction of the store as a function from the committed database to
    the next one. A failed transaction rolls back. */
module Transactions {
  import opened Wrappers
  import opened Control

  datatype Error = NotFound | Constraint | Duplicate | Missing | NotTerminal

  datatype Result = Ok(db: Db) | Err(error: Error)

  datatype LeasePatch = Keep | Clear | Put(at: int)

  /** The SET clause of a queue update. */
  datatype Patch = Patch(to: Option<QueueState>, lease: LeasePatch, retried: bool)

  function Move(to: QueueState): Patch { Patch(Some(to), Keep, false) }

  function PatchRow(row: QueueRow, p: Patch): QueueRow {
    QueueRow(
      row.key,
      if p.to.Some? then p.to.value else row.state,
      row.acceptedAt,
      match p.lease case Keep => row.leasedAt case Clear => None case Put(at) => Some(at),
      if p.retried then row.attempts + 1 else row.attempts)
  }

  /** `UPDATE control_queue SET ... WHERE kind=? AND operation_id=? AND state IN (...)`. */
  function UpdateRows(q: seq<QueueRow>, k: Key, from: set<QueueState>, p: Patch): (r: seq<QueueRow>)
    ensures |r| == |q|
    ensures forall i :: 0 <= i < |q| ==> r[i] == if Selects(q[i], k, from) then PatchRow(q[i], p) else q[i]
  {
    seq(|q|, i requires 0 <= i < |q| => if Selects(q[i], k, from) then PatchRow(q[i], p) else q[i])
  }

  /** COMMIT, which fails on the partial unique index. */
  function Commit(db: Db): Result {
    if OneReserved(db.queue) then Ok(db) else Err(Constraint)
  }

  /** The database after the transaction: unchanged when it rolled back. */
  function After(db: Db, r: Result): Db {
    if r.Ok? then r.db else db
  }

  function CreatePreparedJob(db: Db, id: string, now: int): Result {
    if id in db.jobs || HasRow(db.queue, JobKey(id)) then Err(Duplicate)
    else Commit(db.(jobs := db.jobs[id := Job(Preparing, None, None, None, false)],
                    queue := db.queue + [QueueRow(JobKey(id), Queued, now, Some(now), 0)]))
  }

  function CreateBuild(db: Db, id: string, now: int): Result {
    if id in db.builds || HasRow(db.queue, BuildKey(id)) then Err(Duplicate)
    else Commit(db.(builds := db.builds[id := Build(BuildQueued, None, None)],
                    queue := db.queue + [QueueRow(BuildKey(id), Queued, now, None, 0)]))
  }

  function QueueJob(db: Db, id: string, digest: string): Result {
    if id !in db.jobs || db.jobs[id].status != Preparing then Err(NotFound)
    else if !Matches(db.queue, JobKey(id), {Queued, Admitting}) then Err(NotFound)
    else Commit(db.(jobs := db.jobs[id := db.jobs[id].(status := JobQueued, digest := Some(digest))],
                    queue := UpdateRows(db.queue, JobKey(id), {Queued, Admitting}, Patch(Some(Queued), Clear, false))))
  }

  function SyncedJob(job: Job, remote: Remote): Job {
    Job(remote.status, job.digest, remote.finishedAt, remote.exitCode, remote.cancelRequested)
  }

  function SyncJob(db: Db, id: string, remote: Remote): Result {
    var jobs := if id in db.jobs && !db.jobs[id].status.Terminal()
                then db.jobs[id := SyncedJob(db.jobs[id], remote)] else db.jobs;
    var queue := if remote.status.Terminal()
                 then UpdateRows(db.queue, JobKey(id), EXECUTING, Move(Terminalizing)) else db.queue;
    Commit(db.(jobs := jobs, queue := queue))
  }

  function CancelledJob(job: Job, executing: bool, now: int): Job {
    if job.status == Preparing || (job.status == JobQueued && !executing)
    then job.(status := Cancelled, finishedAt := Some(now), cancelRequested := true)
    else job.(cancelRequested := true)
  }

  function RequestJobCancellation(db: Db, id: string, now: int): Result {
    if id !in db.jobs || db.jobs[id].status.Terminal() then Err(NotFound)
    else
      var executing := Matches(db.queue, JobKey(id), EXECUTING);
      Commit(db.(jobs := db.jobs[id := CancelledJob(db.jobs[id], executing, now)],
                 queue := UpdateRows(db.queue, JobKey(id), {Queued}, Move(Released))))
  }

  function FailJob(db: Db, id: string, now: int): Result {
    if id !in db.jobs || db.jobs[id].status !in {Preparing, JobQueued} then Err(NotFound)
    else Commit(db.(jobs := db.jobs[id := db.jobs[id].(status := Failed, finishedAt := Some(now), exitCode := Some(1))],
                    queue := UpdateRows(db.queue, JobKey(id), OPEN, Move(Terminalizing))))
  }

  /** The row that `AcquireNextOperation` admits, or `|queue|`. */
  function NextOperation(db: Db): (n: nat)
    ensures n <= |db.queue|
  {
    if AnyIn(db.queue, RESERVED) then |db.queue| else Oldest(db.queue, {Queued})
  }

  function AcquireNextOperation(db: Db, now: int): Result {
    var n := NextOperation(db);
    if n == |db.queue| then Ok(db)
    else Commit(db.(queue := UpdateRows(db.queue, db.queue[n].key, {Queued}, Patch(Some(Admitting), Put(now), false))))
  }

  function RequeueAdmittingOperation(db: Db, k: Key): Result {
    if !Matches(db.queue, k, {Admitting}) then Err(NotFound)
    else Commit(db.(queue := UpdateRows(db.queue, k, {Admitting}, Patch(Some(Queued), Clear, false))))
  }

  function ActivateOperation(db: Db, k: Key): Result {
    if !Matches(db.queue, k, {Admitting}) then Err(NotFound)
    else
      var queue := UpdateRows(db.queue, k, {Admitting}, Move(Active));
      if k.kind == JobOp then Commit(db.(queue := queue))
      else if k.id !in db.builds || db.builds[k.id].status != BuildQueued then Err(Missing)
      else Commit(db.(queue := queue, builds := db.builds[k.id := db.builds[k.id].(status := BuildRunning)]))
  }

  function BeginOperationCleanup(db: Db, k: Key): Result {
    if Matches(db.queue, k, OPEN) then
      Commit(db.(queue := UpdateRows(db.queue, k, OPEN, Move(Terminalizing))))
    else if HasRow(db.queue, k) then Ok(db)
    else Err(NotFound)
  }

  function ClaimOperationCleanup(db: Db): Result {
    var n := Oldest(db.queue, TEARDOWN);
    if n == |db.queue| then Ok(db)
    else Commit(db.(queue := UpdateRows(db.queue, db.queue[n].key, TEARDOWN, Patch(Some(Cleaning), Keep, true))))
  }

  function CompleteOperationCleanup(db: Db, k: Key): Result {
    if Matches(db.queue, k, TEARDOWN) then
      Commit(db.(queue := UpdateRows(db.queue, k, TEARDOWN, Move(Released))))
    else if StateOf(db.queue, k) == Some(Released) then Ok(db)
    else if HasRow(db.queue, k) then Err(NotTerminal)
    else Err(NotFound)
  }

  function EmergencyStopActiveOperation(db: Db, now: int): Result {
    var n := Oldest(db.queue, EXECUTING);
    if n == |db.queue| then Ok(db)
    else
      var k := db.queue[n].key;
      var queue := UpdateRows(db.queue, k, EVERY, Move(Terminalizing));
      match k.kind
      case JobOp =>
        if k.id !in db.jobs || db.jobs[k.id].status.Terminal() then Err(Missing)
        else Commit(db.(queue := queue,
                        jobs := db.jobs[k.id := db.jobs[k.id].(status := Failed, finishedAt := Some(now), exitCode := Some(137), cancelRequested := true)]))
      case BuildOp =>
        if k.id !in db.builds || db.builds[k.id].status.Terminal() then Err(Missing)
        else Commit(db.(queue := queue, builds := db.builds[k.id := Build(BuildCancelled, Some(now), Some(130))]))
  }

  function FinishBuild(db: Db, id: string, status: BuildStatus, exitCode: int, now: int): Result {
    if !status.Terminal() then Err(NotTerminal)
    else if id !in db.builds || db.builds[id].status.Terminal() then Err(NotFound)
    else
      var released := UpdateRows(db.queue, BuildKey(id), {Queued}, Move(Released));
      Commit(db.(builds := db.builds[id := Build(status, Some(now), Some(exitCode))],
                 queue := UpdateRows(released, BuildKey(id), EXECUTING, Move(Terminalizing))))
  }

  function RenewOperationLease(db: Db, k: Key, now: int): Result {
    if !Matches(db.queue, k, OPEN) then Err(NotFound)
    else Commit(db.(queue := UpdateRows(db.queue, k, OPEN, Patch(None, Put(now), false))))
  }

  /** `INSERT ... ON CONFLICT DO NOTHING`: the first baseline is immutable. */
  function SaveResourceBaseline(db: Db, k: Key, resources: set<Resource>): Result {
    Ok(if k in db.baselines then db else db.(baselines := db.baselines[k := resources]))
  }
}
