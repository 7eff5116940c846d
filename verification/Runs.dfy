/** What holds over whole runs of the control plane: most of it whatever the
    interleaving, at-most-once in unrushed runs, creation with the digest in uncut
    ones, the job coupling in guarded ones. */
module Runs {
  import opened Wrappers
  import opened Control
  import opened Transactions
  import opened Lease
  import opened History
  import opened Exact
  import opened Protocol
  import opened ProtocolProofs

  lemma {:induction false} RunHolds(ss: seq<Sys>, acts: seq<Action>, i: nat)
    requires IsRun(ss, acts) && i < |ss|
    ensures RunInv(ss[i])
  {
    if i > 0 {
      RunHolds(ss, acts, i - 1);
      StepRuns(ss[i - 1], acts[i - 1]);
      assert ss[i] == Apply(ss[i - 1], acts[i - 1]);
    }
  }

  lemma {:induction false} RunOnce(ss: seq<Sys>, acts: seq<Action>, i: nat)
    requires IsRunOf(Unrushed, ss, acts) && i < |ss|
    ensures OnceInv(ss[i])
  {
    if i > 0 {
      RunOnce(ss, acts, i - 1);
      assert Unrushed(ss[i - 1], acts[i - 1]);
      StepOnce(ss[i - 1], acts[i - 1]);
      assert ss[i] == Apply(ss[i - 1], acts[i - 1]);
    }
  }

  lemma {:induction false} RunReady(ss: seq<Sys>, acts: seq<Action>, i: nat)
    requires IsRunOf(Uncut, ss, acts) && i < |ss|
    ensures DigestInv(ss[i])
  {
    if i > 0 {
      RunReady(ss, acts, i - 1);
      assert Uncut(ss[i - 1], acts[i - 1]);
      StepReady(ss[i - 1], acts[i - 1]);
      assert ss[i] == Apply(ss[i - 1], acts[i - 1]);
    }
  }

  lemma {:induction false} RunFits(ss: seq<Sys>, acts: seq<Action>, i: nat)
    requires IsRunOf(Guarded, ss, acts) && i < |ss|
    ensures FitInv(ss[i])
  {
    if i > 0 {
      RunFits(ss, acts, i - 1);
      assert Guarded(ss[i - 1], acts[i - 1]);
      StepFits(ss[i - 1], acts[i - 1]);
      assert ss[i] == Apply(ss[i - 1], acts[i - 1]);
    }
  }

  // ---------------------------------------------------------------- finality

  /** `b` is settled where `a` was and has only extended its logs. */
  ghost predicate Follows(a: Sys, b: Sys) {
    Settled(a.db, b.db) && a.created <= b.created && a.admitted <= b.admitted
  }

  lemma LogsExtend(s: Sys, a: Action)
    requires Enabled(s, a)
    ensures s.created <= Apply(s, a).created && s.admitted <= Apply(s, a).admitted
  {
  }

  lemma StepSettles(s: Sys, a: Action)
    requires RunInv(s) && Enabled(s, a)
    ensures Follows(s, Apply(s, a))
  {
    LogsExtend(s, a);
    OnlyTxns(s, a);
    if Commits(s, a) { CommitMoves(s, a); }
  }

  lemma FollowsTransitive(a: Sys, b: Sys, c: Sys)
    requires Follows(a, b) && Follows(b, c)
    ensures Follows(a, c)
  {
  }

  lemma NextStep(ss: seq<Sys>, acts: seq<Action>, j: nat)
    requires IsRun(ss, acts) && j < |acts|
    ensures Follows(ss[j], ss[j + 1])
  {
    RunHolds(ss, acts, j);
    assert ss[j + 1] == Apply(ss[j], acts[j]);
    StepSettles(ss[j], acts[j]);
  }

  lemma FollowsItself(s: Sys)
    ensures Follows(s, s)
  {
  }

  lemma {:induction false} ChainFollows(ss: seq<Sys>, i: nat, j: nat)
    requires i <= j < |ss| && forall m :: i <= m < j ==> Follows(ss[m], ss[m + 1])
    ensures Follows(ss[i], ss[j])
    decreases j
  {
    if i < j {
      ChainFollows(ss, i, j - 1);
      FollowsTransitive(ss[i], ss[j - 1], ss[j]);
    } else {
      FollowsItself(ss[i]);
    }
  }

  /** Terminal statuses, exit codes and finish times, committed digests, released
      rows and saved baselines are final, from any point of a run to any later
      one, whatever the interleaving. */
  lemma RunSettles(ss: seq<Sys>, acts: seq<Action>, i: nat, j: nat)
    requires IsRun(ss, acts) && i <= j < |ss|
    ensures Follows(ss[i], ss[j])
  {
    forall m | i <= m < j ensures Follows(ss[m], ss[m + 1]) { NextStep(ss, acts, m); }
    ChainFollows(ss, i, j);
  }

  /** However often an operation is admitted again, the baseline of its first
      preparation is the one kept, and no later preparation saves another. */
  lemma FirstBaselineKept(ss: seq<Sys>, acts: seq<Action>, i: nat, j: nat, k: Key)
    requires IsRun(ss, acts) && i <= j < |ss| && k in ss[i].db.baselines
    ensures k in ss[j].db.baselines && ss[j].db.baselines[k] == ss[i].db.baselines[k]
    ensures j < |acts| && acts[j].Capture? && ss[j].disp == Chosen(k) ==> ss[j + 1].disp == Prepared(k)
  {
    RunSettles(ss, acts, i, j);
    if j < |acts| { assert Enabled(ss[j], acts[j]) && ss[j + 1] == Apply(ss[j], acts[j]); }
  }

  // -------------------------------------------------------- at-most-once

  /** Create is called for a job at most once in a run, whatever crashes, and
      afterwards the row is never queued. All it needs is that no start lands in
      the read window: cancellations, failures, cleanups and verdicts may come at
      any time. */
  lemma AtMostOnce(ss: seq<Sys>, acts: seq<Action>, i: nat, j: nat)
    requires IsRunOf(Unrushed, ss, acts) && i < j <= |acts| && acts[i].Create?
    ensures ss[i].disp.Prepared? && !Waiting(At(ss[j].db, ss[i].disp.k))
    ensures j < |acts| && acts[j].Create? ==> ss[j].disp.Prepared? && ss[j].disp.k != ss[i].disp.k
  {
    var k := ss[i].disp.k;
    assert k == JobKey(k.id);
    assert ss[i + 1] == Apply(ss[i], acts[i]);
    RunOnce(ss, acts, j);
    RunSettles(ss, acts, i + 1, j);
    assert ss[i + 1].created[|ss[i].created|] == k.id;
    assert ss[j].created[|ss[i].created|] == k.id;
    assert k.id in ss[j].created;
    if j < |acts| && acts[j].Create? { CreateIsFresh(ss[j], acts[j].outcome); }
  }

  /** Only a start gives a job its digest: the one it was called with. */
  lemma DigestWriter(db: Db, t: Txn, id: string)
    requires Committed(Next(db, t), id)
    ensures (Committed(db, id) && db.jobs[id].digest == Next(db, t).jobs[id].digest) || t == TQueueJob(id, Next(db, t).jobs[id].digest.value)
  {
  }

  /** In every run, a job's digest is the one an earlier start committed. */
  lemma {:induction false} DigestOrigin(ss: seq<Sys>, acts: seq<Action>, i: nat, id: string) returns (m: nat)
    requires IsRun(ss, acts) && i < |ss| && Committed(ss[i].db, id)
    ensures m < i && acts[m] == Handle(TQueueJob(id, ss[i].db.jobs[id].digest.value))
  {
    assert ss[i] == Apply(ss[i - 1], acts[i - 1]);
    OnlyTxns(ss[i - 1], acts[i - 1]);
    m := i - 1;
    if Commits(ss[i - 1], acts[i - 1]) { DigestWriter(ss[i - 1].db, TxnOf(ss[i - 1], acts[i - 1]), id); }
    if Committed(ss[i - 1].db, id) && ss[i - 1].db.jobs[id].digest == ss[i].db.jobs[id].digest { m := DigestOrigin(ss, acts, i - 1, id); }
  }

  /** Create is called only for a job whose root digest an earlier start has
      committed, and that digest stays. All it needs is that no cancellation and
      no failure lands in the read window: starts may. */
  lemma CreatedWithDigest(ss: seq<Sys>, acts: seq<Action>, i: nat, j: nat)
    requires IsRunOf(Uncut, ss, acts) && i <= j <= |acts| && i < |acts| && acts[i].Create?
    ensures ss[i].disp.Prepared? && Committed(ss[i].db, ss[i].disp.k.id) && Committed(ss[j].db, ss[i].disp.k.id)
    ensures ss[j].db.jobs[ss[i].disp.k.id].digest == ss[i].db.jobs[ss[i].disp.k.id].digest
    ensures exists m :: 0 <= m < i && acts[m] == Handle(TQueueJob(ss[i].disp.k.id, ss[j].db.jobs[ss[i].disp.k.id].digest.value))
  {
    RunReady(ss, acts, i);
    assert Enabled(ss[i], acts[i]);
    RunSettles(ss, acts, i, j);
    var m := DigestOrigin(ss, acts, i, ss[i].disp.k.id);
  }

  // -------------------------------------------------------- no overtaking

  predicate Admits(s: Sys, a: Action) {
    a.Acquire? && s.disp.Idle? && NextOperation(s.db) < |s.db.queue|
  }

  /** At every admission all older operations are released, and stay so; and no
      later admission is of an older operation: in every run. */
  lemma NoOvertaking(ss: seq<Sys>, acts: seq<Action>, i: nat, j: nat, older: nat)
    requires IsRun(ss, acts) && i < j <= |acts| && Admits(ss[i], acts[i])
    requires older < NextOperation(ss[i].db)
    ensures ss[i].db.queue[older].state == Released
    ensures older < |ss[j].db.queue| && ss[j].db.queue[older].key == ss[i].db.queue[older].key
    ensures ss[j].db.queue[older].state == Released
    ensures j < |acts| && Admits(ss[j], acts[j]) ==> NextOperation(ss[i].db) <= NextOperation(ss[j].db)
  {
    RunHolds(ss, acts, i);
    AdmissionIsNewest(ss[i], acts[i].now);
    RunSettles(ss, acts, i, j);
    assert RowOutlasts(ss[i].db.queue[older], ss[j].db.queue[older]);
    if j < |acts| && Admits(ss[j], acts[j]) { AdmissionsInOrder(ss, acts, i, j); }
  }

  lemma AdmissionsInOrder(ss: seq<Sys>, acts: seq<Action>, i: nat, j: nat)
    requires IsRun(ss, acts) && i < j < |acts| && Admits(ss[i], acts[i]) && Admits(ss[j], acts[j])
    ensures NextOperation(ss[i].db) <= NextOperation(ss[j].db)
  {
    var n := NextOperation(ss[i].db);
    assert ss[i + 1] == Apply(ss[i], acts[i]);
    RunHolds(ss, acts, j);
    RunSettles(ss, acts, i + 1, j);
    assert ss[i + 1].admitted[|ss[i].admitted|] == n;
    assert ss[j].admitted[|ss[i].admitted|] == n;
    AdmissionIsNewest(ss[j], acts[j].now);
    assert OlderReleased(ss[j].db, n);
  }

  // -------------------------------------------------------------- coupling

  /** What the status of a job says about its queue row, in every state of a run. */
  predicate StatusFitsRow(job: Job, s: QueueState) {
    && (job.status == Preparing ==> s in {Queued, Admitting})
    && (job.status == JobQueued ==> s in {Queued, Admitting, Active})
    && (job.status == Running ==> s == Active)
    && (job.status.Terminal() ==> s in {Terminalizing, Cleaning, Released} || (job.status == Cancelled && s == Admitting))
  }

  predicate JobFits(db: Db, id: string)
    requires id in db.jobs
  {
    var s := At(db, JobKey(id));
    s.Some? && StatusFitsRow(db.jobs[id], s.value)
  }

  /** Every job fits its row. */
  ghost predicate Coupled(db: Db) {
    forall id :: id in db.jobs ==> JobFits(db, id)
  }

  lemma InvIsCoupled(db: Db)
    requires Inv(db)
    ensures Coupled(db)
  {
    forall id | id in db.jobs ensures JobFits(db, id) { var n := RowAt(db, JobKey(id)); }
  }

  lemma JobCoupling(ss: seq<Sys>, acts: seq<Action>, i: nat, id: string)
    requires IsRunOf(Guarded, ss, acts) && i < |ss| && id in ss[i].db.jobs
    ensures JobFits(ss[i].db, id)
  {
    RunFits(ss, acts, i);
    InvIsCoupled(ss[i].db);
  }

  lemma BuildCoupling(ss: seq<Sys>, acts: seq<Action>, i: nat, id: string)
    requires IsRun(ss, acts) && i < |ss| && id in ss[i].db.builds
    ensures var s := At(ss[i].db, BuildKey(id)); s.Some? && BuildCoupled(ss[i].db.builds[id], s.value)
    ensures forall other :: BuildActive(ss[i].db, id) && BuildActive(ss[i].db, other) ==> other == id
  {
    RunHolds(ss, acts, i);
    var n := RowAt(ss[i].db, BuildKey(id));
    forall other | BuildActive(ss[i].db, id) && BuildActive(ss[i].db, other) ensures other == id {
      OneActiveBuild(ss[i].db, id, other);
    }
  }

  // -------------------------------------------------------------- heartbeat

  function LeaseTime(row: QueueRow): int {
    if row.leasedAt.Some? then row.leasedAt.value else row.acceptedAt
  }

  predicate StaleRow(row: QueueRow, k: Key, states: set<QueueState>, before: int) {
    row.key == k && row.state in states && LeaseTime(row) < before
  }

  /** `StalePreparingJobs` lists job `id`. */
  ghost predicate StalePreparing(db: Db, id: string, before: int) {
    && id in db.jobs && db.jobs[id].status == Preparing
    && exists i :: 0 <= i < |db.queue| && StaleRow(db.queue[i], JobKey(id), {Queued, Admitting}, before)
  }

  /** `StaleBuilds` lists build `id`. */
  ghost predicate StaleBuild(db: Db, id: string, before: int) {
    && id in db.builds && !db.builds[id].status.Terminal()
    && exists i :: 0 <= i < |db.queue| && StaleRow(db.queue[i], BuildKey(id), OPEN, before)
  }

  /** In every run, a preparing job is listed as stale exactly when its last
      creation, acquisition or renewal lies before the cutoff and its row still
      waits for the start; in a guarded run it always does. */
  lemma HeartbeatDecides(ss: seq<Sys>, acts: seq<Action>, i: nat, id: string, before: int)
    requires IsRun(ss, acts) && i < |ss| && id in ss[i].db.jobs && ss[i].db.jobs[id].status == Preparing
    ensures JobKey(id) in ss[i].beats
    ensures StalePreparing(ss[i].db, id, before) <==>
            ss[i].beats[JobKey(id)] < before && Matches(ss[i].db.queue, JobKey(id), {Queued, Admitting})
    ensures IsRunOf(Guarded, ss, acts) ==> Matches(ss[i].db.queue, JobKey(id), {Queued, Admitting})
  {
    var s := ss[i];
    RunHolds(ss, acts, i);
    var n := FindRow(s.db, JobKey(id));
    MatchesAt(s.db.queue, n, {Queued, Admitting});
    assert Beating(s.db, s.beats, s.db.queue[n]);
    if m :| 0 <= m < |s.db.queue| && StaleRow(s.db.queue[m], JobKey(id), {Queued, Admitting}, before) {
      assert m == n;
    }
    if s.beats[JobKey(id)] < before && s.db.queue[n].state in {Queued, Admitting} {
      assert StaleRow(s.db.queue[n], JobKey(id), {Queued, Admitting}, before);
    }
    if IsRunOf(Guarded, ss, acts) {
      RunFits(ss, acts, i);
      assert RowFits(s.db, s.db.queue[n]);
    }
  }

  /** In every run, an unfinished build is listed as stale exactly when its last
      acquisition or renewal since its last requeue, or without one its
      acceptance, lies before the cutoff. */
  lemma BuildHeartbeatDecides(ss: seq<Sys>, acts: seq<Action>, i: nat, id: string, before: int) returns (n: nat)
    requires IsRun(ss, acts) && i < |ss| && id in ss[i].db.builds && !ss[i].db.builds[id].status.Terminal()
    ensures n < |ss[i].db.queue| && ss[i].db.queue[n].key == BuildKey(id)
    ensures StaleBuild(ss[i].db, id, before) <==>
            match LastBeat(ss[i].beats, BuildKey(id))
            case Some(beat) => beat < before
            case None => ss[i].db.queue[n].acceptedAt < before
  {
    var s := ss[i];
    RunHolds(ss, acts, i);
    n := FindRow(s.db, BuildKey(id));
    assert Beating(s.db, s.beats, s.db.queue[n]) && RowRecorded(s.db, s.db.queue[n]);
    if m :| 0 <= m < |s.db.queue| && StaleRow(s.db.queue[m], BuildKey(id), OPEN, before) {
      assert m == n;
    }
    if LeaseTime(s.db.queue[n]) < before { assert StaleRow(s.db.queue[n], BuildKey(id), OPEN, before); }
  }

  // ------------------------------------------------------- reclaim exclusion

  lemma NothingStarts(db: Db, t: Txn, db': Db)
    requires Shape(db, t, db') && !t.TAcquire? && !AnyIn(db.queue, EXECUTING)
    ensures !AnyIn(db'.queue, EXECUTING)
  {
  }

  lemma StepStartsNothing(s: Sys, a: Action)
    requires RunInv(s) && Enabled(s, a) && !a.Acquire? && !AnyIn(s.db.queue, EXECUTING)
    ensures !AnyIn(Apply(s, a).db.queue, EXECUTING)
  {
    OnlyTxns(s, a);
    if Commits(s, a) {
      CommitMoves(s, a);
      assert !TxnOf(s, a).TAcquire? by { assert a.Handle? && a.t in s.intents ==> IntentRuns(s, a.t); }
      NothingStarts(s.db, TxnOf(s, a), Apply(s, a).db);
    }
  }

  lemma ReservedIfExecuting(q: seq<QueueRow>)
    ensures AnyIn(q, EXECUTING) ==> AnyIn(q, RESERVED)
  {
  }

  /** Once `Busy` has answered no, no operation is admitting or active until the
      next admission, whatever else happens: the capacity lock excludes
      admissions, so both reclaims find the worker without an executing
      operation. */
  lemma {:induction false} ReclaimExcludesExecution(ss: seq<Sys>, acts: seq<Action>, i: nat, j: nat)
    requires IsRun(ss, acts) && i <= j < |ss|
    requires !AnyIn(ss[i].db.queue, RESERVED)
    requires forall m :: i <= m < j ==> !acts[m].Acquire?
    ensures !AnyIn(ss[j].db.queue, EXECUTING)
    decreases j
  {
    if i == j {
      ReservedIfExecuting(ss[i].db.queue);
    } else {
      ReclaimExcludesExecution(ss, acts, i, j - 1);
      RunHolds(ss, acts, j - 1);
      assert !acts[j - 1].Acquire?;
      StepStartsNothing(ss[j - 1], acts[j - 1]);
      assert ss[j] == Apply(ss[j - 1], acts[j - 1]);
    }
  }
}
