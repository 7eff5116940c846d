/** Exactly which calls keep the lease invariant, exactly which calls the
    unique index aborts, and what the invariant says about admission. */
module Exact {
  import opened Wrappers
  import opened Control
  import opened Transactions
  import opened Lease

  // ------------------------------------------------------ the guard is exact

  /** One decoupled row is enough to break the invariant. */
  lemma Decoupled(db: Db, n: nat)
    requires n < |db.queue| && !RowCoupled(db, db.queue[n])
    ensures !Inv(db)
  {
  }

  lemma SyncNeedsGuard(db: Db, id: string, remote: Remote)
    requires Inv(db) && !SyncGuard(db, id, remote)
    ensures !Inv(Next(db, TSync(id, remote)))
  {
    var r := SyncJob(db, id, remote);
    var n := FindRow(db, JobKey(id));
    assert RowCoupled(db, db.queue[n]);
    UpdateRow(db.queue, n, EXECUTING, Move(Terminalizing));
    MatchesAt(db.queue, n, EXECUTING);
    MatchesAt(db.queue, n, {Active});
    if r.Ok? {
      assert !RowCoupled(r.db, r.db.queue[n]);
      Decoupled(r.db, n);
    }
  }

  lemma RequeueNeedsGuard(db: Db, k: Key)
    requires Inv(db) && !AdmittedGuard(db, k)
    ensures !Inv(Next(db, TRequeue(k)))
  {
  }

  /** Moving row `n` within or out of the reservation cannot trip the index. */
  lemma FreedRow(db: Db, n: nat, s: QueueState)
    requires OneReserved(db.queue) && n < |db.queue|
    requires db.queue[n].state in RESERVED || s !in RESERVED
    ensures forall row: QueueRow :: row.state == s ==> OneReserved(db.queue[n := row])
  {
  }

  lemma ActivateNeedsGuard(db: Db, k: Key)
    requires Inv(db) && !AdmittedGuard(db, k)
    ensures !Inv(Next(db, TActivate(k)))
  {
  }

  lemma BeginNeedsGuard(db: Db, k: Key)
    requires Inv(db) && !CleanupGuard(db, k)
    ensures !Inv(Next(db, TBeginCleanup(k)))
  {
    var r := BeginOperationCleanup(db, k);
    var n := Find(db, k, OPEN);
    assert RowCoupled(db, db.queue[n]);
    MatchesAt(db.queue, n, {Queued});
    UpdateRow(db.queue, n, OPEN, Move(Terminalizing));
    ReserveRow(db.queue, n, PatchRow(db.queue[n], Move(Terminalizing)));
    Decoupled(r.db, n);
  }

  /** Taking a queued row into the reservation aborts exactly when one is held. */
  lemma ReserveRow(q: seq<QueueRow>, n: nat, row: QueueRow)
    requires OneReserved(q) && n < |q| && row.state in RESERVED
    ensures OneReserved(q[n := row]) <==> q[n].state in RESERVED || !AnyIn(q, RESERVED)
  {
    var q' := q[n := row];
    if i :| 0 <= i < |q| && q[i].state in RESERVED && q[n].state !in RESERVED {
      assert q'[i].state in RESERVED && q'[n].state in RESERVED;
    }
  }

  /** Of every transaction: the lease invariant survives it exactly when its
      caller kept the guard. */
  lemma GuardIsExact(db: Db, t: Txn)
    requires Inv(db)
    ensures Inv(Next(db, t)) <==> Guard(db, t)
  {
    if Guard(db, t) {
      TxnKept(db, t);
    } else {
      match t
      case TSync(id, remote) => SyncNeedsGuard(db, id, remote);
      case TRequeue(k) => RequeueNeedsGuard(db, k);
      case TActivate(k) => ActivateNeedsGuard(db, k);
      case TBeginCleanup(k) => BeginNeedsGuard(db, k);
    }
  }

  // --------------------------------------------------------- the unique index

  predicate TripsIndex(db: Db, t: Txn) {
    match t
    case TFailJob(id, now) => id in db.jobs && db.jobs[id].status in {Preparing, JobQueued} && IndexAborts(db, JobKey(id))
    case TBeginCleanup(k) => IndexAborts(db, k)
    case _ => false
  }

  lemma FailTrips(db: Db, id: string, now: int)
    requires Base(db)
    ensures FailJob(db, id, now) == Err(Constraint) <==> TripsIndex(db, TFailJob(id, now))
  {
  }

  lemma BeginTrips(db: Db, k: Key)
    requires Base(db)
    ensures BeginOperationCleanup(db, k) == Err(Constraint) <==> TripsIndex(db, TBeginCleanup(k))
  {
  }

  /** No other update can create a second reservation. */
  lemma UpdateCommits(q: seq<QueueRow>, k: Key, from: set<QueueState>, p: Patch)
    requires UniqueKeys(q) && OneReserved(q)
    requires forall s :: s in from ==> s in RESERVED || (if p.to.Some? then p.to.value else s) !in RESERVED
    ensures OneReserved(UpdateRows(q, k, from, p))
  {
  }

  lemma AcquireCommits(db: Db, now: int)
    requires UniqueKeys(db.queue) && OneReserved(db.queue)
    ensures AcquireNextOperation(db, now).Ok?
  {
  }

  lemma FinishCommits(db: Db, id: string, status: BuildStatus, exitCode: int, now: int)
    requires Base(db)
    ensures FinishBuild(db, id, status, exitCode, now) != Err(Constraint)
  {
  }

  lemma EmergencyCommits(db: Db, now: int)
    requires Base(db)
    ensures EmergencyStopActiveOperation(db, now) != Err(Constraint)
  {
  }

  /** The unique index aborts `FailJob` and `BeginOperationCleanup` of a queued
      operation while a reservation is held, and nothing else ever; an aborted
      transaction leaves the database as it was. */
  lemma OnlyQueuedCleanupTrips(db: Db, t: Txn)
    requires Base(db)
    ensures Run(db, t) == Err(Constraint) <==> TripsIndex(db, t)
    ensures TripsIndex(db, t) ==> Next(db, t) == db
  {
    match t
    case TCreateJob(id, now) => AppendCommits(db.queue, QueueRow(JobKey(id), Queued, now, Some(now), 0));
    case TCreateBuild(id, now) => AppendCommits(db.queue, QueueRow(BuildKey(id), Queued, now, None, 0));
    case TQueueJob(id, digest) => UpdateCommits(db.queue, JobKey(id), {Queued, Admitting}, Patch(Some(Queued), Clear, false));
    case TSync(id, remote) => UpdateCommits(db.queue, JobKey(id), EXECUTING, Move(Terminalizing));
    case TCancelJob(id, now) => UpdateCommits(db.queue, JobKey(id), {Queued}, Move(Released));
    case TFailJob(id, now) => FailTrips(db, id, now);
    case TAcquire(now) => AcquireCommits(db, now);
    case TRequeue(k) => UpdateCommits(db.queue, k, {Admitting}, Patch(Some(Queued), Clear, false));
    case TActivate(k) => UpdateCommits(db.queue, k, {Admitting}, Move(Active));
    case TBeginCleanup(k) => BeginTrips(db, k);
    case TClaim => ClaimCommits(db);
    case TComplete(k) => UpdateCommits(db.queue, k, TEARDOWN, Move(Released));
    case TEmergency(now) => EmergencyCommits(db, now);
    case TFinishBuild(id, status, exitCode, now) => FinishCommits(db, id, status, exitCode, now);
    case TRenew(k, now) => UpdateCommits(db.queue, k, OPEN, Patch(None, Put(now), false));
    case TSaveBaseline(k, resources) =>
  }

  lemma AppendCommits(q: seq<QueueRow>, row: QueueRow)
    requires OneReserved(q) && row.state == Queued
    ensures OneReserved(q + [row])
  {
  }

  lemma ClaimCommits(db: Db)
    requires Base(db)
    ensures ClaimOperationCleanup(db).Ok?
  {
  }

  // ------------------------------------------------------------ consequences

  /** `OperationActive` for a build: its status is running. */
  predicate BuildActive(db: Db, id: string) {
    id in db.builds && db.builds[id].status == BuildRunning
  }

  /** At most one build id is accepted on the data plane at any time. */
  lemma OneActiveBuild(db: Db, a: string, b: string)
    requires Base(db) && BuildActive(db, a) && BuildActive(db, b)
    ensures a == b
  {
  }
}
