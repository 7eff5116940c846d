/** The control store as an object: its tables are fields, every transaction
    works on copies and assigns the fields when it commits. Each method is proved
    to be the transaction function the run model is built on. */
module Store {
  import opened Wrappers
  import opened Control
  import opened Transactions
  import opened Lease
  import opened Exact

  /** `RowsAffected` of an update of the queue. */
  function Affected(q: seq<QueueRow>, k: Key, from: set<QueueState>): nat {
    if q == [] then 0
    else (if Selects(q[|q| - 1], k, from) then 1 else 0) + Affected(q[..|q| - 1], k, from)
  }

  /** With unique keys an update affects one row or none. */
  lemma {:induction false} AffectedIsMatch(q: seq<QueueRow>, k: Key, from: set<QueueState>)
    requires UniqueKeys(q)
    ensures Affected(q, k, from) == if Matches(q, k, from) then 1 else 0
  {
    if q != [] {
      var last, front := |q| - 1, q[..|q| - 1];
      AffectedIsMatch(front, k, from);
      if Selects(q[last], k, from) {
        forall i | 0 <= i < |front| ensures !Selects(front[i], k, from) { assert q[i].key != q[last].key; }
      } else if Matches(front, k, from) {
        var i :| 0 <= i < |front| && Selects(front[i], k, from);
        assert Selects(q[i], k, from);
      } else {
        forall i | 0 <= i < |q| ensures !Selects(q[i], k, from) {
          if i < last { assert !Selects(front[i], k, from); }
        }
      }
    }
  }

  /** What a method did to the rows: the transaction `t`, rolled back with `err`
      if there is one, and keeping the lease invariant when its caller kept the
      guard. */
  ghost predicate Did(before: Db, t: Txn, after: Db, err: Option<Error>) {
    && after == Next(before, t)
    && (err.None? <==> Run(before, t).Ok?)
    && (err.Some? ==> Run(before, t) == Err(err.value))
    && (Inv(before) && Guard(before, t) ==> Inv(after))
  }

  lemma Keeps(before: Db, t: Txn)
    ensures Inv(before) && Guard(before, t) ==> Inv(Next(before, t))
  {
    if Inv(before) && Guard(before, t) { TxnKept(before, t); }
  }

  lemma ClaimedRow(q: seq<QueueRow>, n: nat, p: Patch)
    requires UniqueKeys(q) && OneReserved(q) && n < |q| && q[n].state in TEARDOWN && p.to == Some(Cleaning)
    ensures var q' := UpdateRows(q, q[n].key, TEARDOWN, p);
            UniqueKeys(q') && OneReserved(q') && Matches(q', q[n].key, {Cleaning})
  {
  }

  class ControlStore {
    var queue: seq<QueueRow>
    var jobs: map<string, Job>
    var builds: map<string, Build>
    var baselines: map<Key, set<Resource>>

    /** The uniqueness constraints of the schema. */
    ghost predicate Valid()
      reads this
    {
      UniqueKeys(queue) && OneReserved(queue)
    }

    ghost function Rows(): Db
      reads this
    {
      Db(queue, jobs, builds, baselines)
    }

    constructor ()
      ensures Valid() && Rows() == EMPTY && Inv(Rows())
    {
      queue, jobs, builds, baselines := [], map[], map[], map[];
    }

    method Commit(q: seq<QueueRow>, js: map<string, Job>, bs: map<string, Build>) returns (err: Option<Error>)
      requires Valid() && UniqueKeys(q)
      modifies `queue, `jobs, `builds
      ensures Valid()
      ensures err == if OneReserved(q) then None else Some(Constraint)
      ensures Rows() == if OneReserved(q) then Db(q, js, bs, baselines) else old(Rows())
    {
      if !OneReserved(q) {
        return Some(Constraint);
      }
      queue, jobs, builds := q, js, bs;
      err := None;
    }

    method CreatePreparedJob(id: string, now: int) returns (err: Option<Error>)
      requires Valid()
      modifies this
      ensures Valid() && Did(old(Rows()), TCreateJob(id, now), Rows(), err)
    {
      Keeps(Rows(), TCreateJob(id, now));
      if id in jobs || HasRow(queue, JobKey(id)) {
        err := Some(Duplicate);
      } else {
        var row := QueueRow(JobKey(id), Queued, now, Some(now), 0);
        err := Commit(queue + [row], jobs[id := Job(Preparing, None, None, None, false)], builds);
      }
    }

    method CreateBuild(id: string, now: int) returns (err: Option<Error>)
      requires Valid()
      modifies this
      ensures Valid() && Did(old(Rows()), TCreateBuild(id, now), Rows(), err)
    {
      Keeps(Rows(), TCreateBuild(id, now));
      if id in builds || HasRow(queue, BuildKey(id)) {
        err := Some(Duplicate);
      } else {
        var row := QueueRow(BuildKey(id), Queued, now, None, 0);
        err := Commit(queue + [row], jobs, builds[id := Build(BuildQueued, None, None)]);
      }
    }

    method QueueJob(id: string, digest: string) returns (err: Option<Error>)
      requires Valid()
      modifies this
      ensures Valid() && Did(old(Rows()), TQueueJob(id, digest), Rows(), err)
      ensures err.None? ==> id in jobs && jobs[id].status == JobQueued && jobs[id].digest == Some(digest)
    {
      Keeps(Rows(), TQueueJob(id, digest));
      if id !in jobs || jobs[id].status != Preparing {
        return Some(NotFound);
      }
      var js := jobs[id := jobs[id].(status := JobQueued, digest := Some(digest))];
      var q := UpdateRows(queue, JobKey(id), {Queued, Admitting}, Patch(Some(Queued), Clear, false));
      AffectedIsMatch(queue, JobKey(id), {Queued, Admitting});
      if Affected(queue, JobKey(id), {Queued, Admitting}) != 1 {
        return Some(NotFound);
      }
      err := Commit(q, js, builds);
    }

    method SyncJob(id: string, remote: Remote) returns (err: Option<Error>)
      requires Valid()
      modifies this
      ensures Valid() && Did(old(Rows()), TSync(id, remote), Rows(), err)
      ensures id in old(jobs) && !old(jobs)[id].status.Terminal() && err.None? ==>
                && id in jobs && jobs[id].status == remote.status && jobs[id].exitCode == remote.exitCode
                && jobs[id].finishedAt == remote.finishedAt && jobs[id].cancelRequested == remote.cancelRequested
      ensures id in old(jobs) && old(jobs)[id].status.Terminal() ==> jobs == old(jobs)
    {
      Keeps(Rows(), TSync(id, remote));
      var js, q := jobs, queue;
      if id in jobs && !jobs[id].status.Terminal() {
        js := js[id := Job(remote.status, jobs[id].digest, remote.finishedAt, remote.exitCode, remote.cancelRequested)];
      }
      if remote.status.Terminal() {
        q := UpdateRows(q, JobKey(id), EXECUTING, Move(Terminalizing));
      }
      err := Commit(q, js, builds);
    }

    method RequestJobCancellation(id: string, now: int) returns (err: Option<Error>)
      requires Valid()
      modifies this
      ensures Valid() && Did(old(Rows()), TCancelJob(id, now), Rows(), err)
      ensures err.None? ==> id in jobs && jobs[id].cancelRequested
    {
      Keeps(Rows(), TCancelJob(id, now));
      if id !in jobs || jobs[id].status.Terminal() {
        return Some(NotFound);
      }
      var job := jobs[id].(cancelRequested := true);
      if job.status == Preparing || (job.status == JobQueued && !Matches(queue, JobKey(id), EXECUTING)) {
        job := job.(status := Cancelled, finishedAt := Some(now));
      }
      var q := UpdateRows(queue, JobKey(id), {Queued}, Move(Released));
      err := Commit(q, jobs[id := job], builds);
    }

    method FailJob(id: string, now: int) returns (err: Option<Error>)
      requires Valid()
      modifies this
      ensures Valid() && Did(old(Rows()), TFailJob(id, now), Rows(), err)
      ensures err.None? ==> id in jobs && jobs[id].status == Failed && jobs[id].exitCode == Some(1) && jobs[id].finishedAt == Some(now)
    {
      Keeps(Rows(), TFailJob(id, now));
      if id !in jobs || jobs[id].status !in {Preparing, JobQueued} {
        return Some(NotFound);
      }
      var js := jobs[id := jobs[id].(status := Failed, finishedAt := Some(now), exitCode := Some(1))];
      var q := UpdateRows(queue, JobKey(id), OPEN, Move(Terminalizing));
      err := Commit(q, js, builds);
    }

    /** Returns the admitted operation, or `None` when the worker is reserved or
        nothing is queued. */
    method AcquireNextOperation(now: int) returns (operation: Option<Key>, err: Option<Error>)
      requires Valid()
      modifies this
      ensures Valid() && Did(old(Rows()), TAcquire(now), Rows(), err) && err.None?
      ensures operation.None? <==> AnyIn(old(queue), RESERVED) || !AnyIn(old(queue), {Queued})
      ensures operation.Some? ==>
                exists n :: 0 <= n < |old(queue)| && Selects(old(queue)[n], operation.value, {Queued})
                  && forall i :: 0 <= i < n ==> old(queue)[i].state == Released
    {
      Keeps(Rows(), TAcquire(now));
      if AnyIn(queue, RESERVED) {
        return None, None;
      }
      var n := Oldest(queue, {Queued});
      if n == |queue| {
        return None, None;
      }
      var k := queue[n].key;
      var p := Patch(Some(Admitting), Put(now), false);
      UpdateOne(queue, n, {Queued}, p);
      ReserveRow(queue, n, PatchRow(queue[n], p));
      assert Selects(queue[n], k, {Queued});
      err := Commit(UpdateRows(queue, k, {Queued}, p), jobs, builds);
      operation := Some(k);
    }

    method RequeueAdmittingOperation(k: Key) returns (err: Option<Error>)
      requires Valid()
      modifies this
      ensures Valid() && Did(old(Rows()), TRequeue(k), Rows(), err)
    {
      Keeps(Rows(), TRequeue(k));
      AffectedIsMatch(queue, k, {Admitting});
      if Affected(queue, k, {Admitting}) != 1 {
        err := Some(NotFound);
      } else {
        err := Commit(UpdateRows(queue, k, {Admitting}, Patch(Some(Queued), Clear, false)), jobs, builds);
      }
    }

    method ActivateOperation(k: Key) returns (err: Option<Error>)
      requires Valid()
      modifies this
      ensures Valid() && Did(old(Rows()), TActivate(k), Rows(), err)
    {
      Keeps(Rows(), TActivate(k));
      AffectedIsMatch(queue, k, {Admitting});
      if Affected(queue, k, {Admitting}) != 1 {
        return Some(NotFound);
      }
      var q, bs := UpdateRows(queue, k, {Admitting}, Move(Active)), builds;
      if k.kind == BuildOp {
        if k.id !in builds || builds[k.id].status != BuildQueued {
          return Some(Missing);
        }
        bs := builds[k.id := builds[k.id].(status := BuildRunning)];
      }
      err := Commit(q, jobs, bs);
    }

    method BeginOperationCleanup(k: Key) returns (err: Option<Error>)
      requires Valid()
      modifies this
      ensures Valid() && Did(old(Rows()), TBeginCleanup(k), Rows(), err)
    {
      Keeps(Rows(), TBeginCleanup(k));
      AffectedIsMatch(queue, k, OPEN);
      if Affected(queue, k, OPEN) == 1 {
        err := Commit(UpdateRows(queue, k, OPEN, Move(Terminalizing)), jobs, builds);
      } else if HasRow(queue, k) {
        err := None;
      } else {
        err := Some(NotFound);
      }
    }

    method ClaimOperationCleanup() returns (operation: Option<Key>, err: Option<Error>)
      requires Valid()
      modifies this
      ensures Valid() && Did(old(Rows()), TClaim, Rows(), err) && err.None?
      ensures operation.None? <==> !AnyIn(old(queue), TEARDOWN)
      ensures operation.Some? ==> Matches(queue, operation.value, {Cleaning})
    {
      Keeps(Rows(), TClaim);
      var n := Oldest(queue, TEARDOWN);
      if n == |queue| {
        return None, None;
      }
      var k := queue[n].key;
      var p := Patch(Some(Cleaning), Keep, true);
      ClaimedRow(queue, n, p);
      err := Commit(UpdateRows(queue, k, TEARDOWN, p), jobs, builds);
      operation := Some(k);
    }

    method CompleteOperationCleanup(k: Key) returns (err: Option<Error>)
      requires Valid()
      modifies this
      ensures Valid() && Did(old(Rows()), TComplete(k), Rows(), err)
    {
      Keeps(Rows(), TComplete(k));
      AffectedIsMatch(queue, k, TEARDOWN);
      if Affected(queue, k, TEARDOWN) == 1 {
        err := Commit(UpdateRows(queue, k, TEARDOWN, Move(Released)), jobs, builds);
      } else {
        var state := StateOf(queue, k);
        err := if state.None? then Some(NotFound) else if state.value == Released then None else Some(NotTerminal);
      }
    }

    method EmergencyStopActiveOperation(now: int) returns (operation: Option<Key>, err: Option<Error>)
      requires Valid()
      modifies this
      ensures Valid() && Did(old(Rows()), TEmergency(now), Rows(), err)
      ensures operation.Some? ==> err.None? && Matches(queue, operation.value, {Terminalizing})
      ensures operation.Some? && operation.value.kind == JobOp ==>
                var id := operation.value.id; id in jobs && jobs[id].status == Failed && jobs[id].exitCode == Some(137) && jobs[id].cancelRequested
      ensures operation.Some? && operation.value.kind == BuildOp ==>
                var id := operation.value.id; id in builds && builds[id].status == BuildCancelled && builds[id].exitCode == Some(130)
    {
      Keeps(Rows(), TEmergency(now));
      var n := Oldest(queue, EXECUTING);
      if n == |queue| {
        return None, None;
      }
      var k := queue[n].key;
      var js, bs := jobs, builds;
      if k.kind == JobOp {
        if k.id !in jobs || jobs[k.id].status.Terminal() {
          return None, Some(Missing);
        }
        js := jobs[k.id := jobs[k.id].(status := Failed, finishedAt := Some(now), exitCode := Some(137), cancelRequested := true)];
      } else {
        if k.id !in builds || builds[k.id].status.Terminal() {
          return None, Some(Missing);
        }
        bs := builds[k.id := Build(BuildCancelled, Some(now), Some(130))];
      }
      UpdateRow(queue, n, EVERY, Move(Terminalizing));
      err := Commit(UpdateRows(queue, k, EVERY, Move(Terminalizing)), js, bs);
      if err.None? {
        assert Selects(queue[n], k, {Terminalizing});
        operation := Some(k);
      } else {
        operation := None;
      }
    }

    method FinishBuild(id: string, status: BuildStatus, exitCode: int, now: int) returns (err: Option<Error>)
      requires Valid()
      modifies this
      ensures Valid() && Did(old(Rows()), TFinishBuild(id, status, exitCode, now), Rows(), err)
      ensures err.None? ==> id in builds && builds[id] == Build(status, Some(now), Some(exitCode))
    {
      Keeps(Rows(), TFinishBuild(id, status, exitCode, now));
      if !status.Terminal() {
        return Some(NotTerminal);
      }
      if id !in builds || builds[id].status.Terminal() {
        return Some(NotFound);
      }
      var released := UpdateRows(queue, BuildKey(id), {Queued}, Move(Released));
      var q := UpdateRows(released, BuildKey(id), EXECUTING, Move(Terminalizing));
      err := Commit(q, jobs, builds[id := Build(status, Some(now), Some(exitCode))]);
    }

    method RenewOperationLease(k: Key, now: int) returns (err: Option<Error>)
      requires Valid()
      modifies this
      ensures Valid() && Did(old(Rows()), TRenew(k, now), Rows(), err)
    {
      Keeps(Rows(), TRenew(k, now));
      AffectedIsMatch(queue, k, OPEN);
      if Affected(queue, k, OPEN) != 1 {
        err := Some(NotFound);
      } else {
        err := Commit(UpdateRows(queue, k, OPEN, Patch(None, Put(now), false)), jobs, builds);
      }
    }

    method SaveResourceBaseline(k: Key, resources: set<Resource>)
      requires Valid()
      modifies this
      ensures Valid() && Did(old(Rows()), TSaveBaseline(k, resources), Rows(), None)
    {
      Keeps(Rows(), TSaveBaseline(k, resources));
      if k !in baselines {
        baselines := baselines[k := resources];
      }
    }
  }
}
