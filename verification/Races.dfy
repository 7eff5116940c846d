/** The conditions of the run theorems are exact. In every state of an unrushed
    run, a call from outside the dispatcher is unrushed exactly when at-most-once
    survives all unrushed continuations; of an uncut run, uncut exactly when
    creation with the digest does; of a guarded run, guarded exactly when the
    coupling of jobs with their rows does. The states where the code fails them
    are reached from the empty store. */
module Races {
  import opened Wrappers
  import opened Control
  import opened Transactions
  import opened Lease
  import opened History
  import opened Exact
  import opened Protocol
  import opened ProtocolProofs
  import Runs

  /** `acts` leads from `s` to `s'` in steps that `ok` allows. */
  ghost predicate Leads(ok: (Sys, Action) -> bool, s: Sys, acts: seq<Action>, s': Sys)
    decreases |acts|
  {
    if acts == [] then s' == s
    else Enabled(s, acts[0]) && ok(s, acts[0]) && Leads(ok, Apply(s, acts[0]), acts[1..], s')
  }

  lemma {:induction false} LeadsOn(ok: (Sys, Action) -> bool, s: Sys, acts: seq<Action>, s': Sys, more: seq<Action>, s'': Sys)
    requires Leads(ok, s, acts, s') && Leads(ok, s', more, s'')
    ensures Leads(ok, s, acts + more, s'')
    decreases |acts|
  {
    if acts == [] {
      assert acts + more == more;
    } else {
      LeadsOn(ok, Apply(s, acts[0]), acts[1..], s', more, s'');
      assert (acts + more)[1..] == acts[1..] + more;
    }
  }

  lemma {:induction false} LeadsOnce(s: Sys, acts: seq<Action>, s': Sys)
    requires OnceInv(s) && Leads(Unrushed, s, acts, s')
    ensures OnceInv(s')
    decreases |acts|
  {
    if acts != [] {
      assert Unrushed(s, acts[0]);
      StepOnce(s, acts[0]);
      LeadsOnce(Apply(s, acts[0]), acts[1..], s');
    }
  }

  lemma {:induction false} LeadsReady(s: Sys, acts: seq<Action>, s': Sys)
    requires DigestInv(s) && Leads(Uncut, s, acts, s')
    ensures DigestInv(s')
    decreases |acts|
  {
    if acts != [] {
      assert Uncut(s, acts[0]);
      StepReady(s, acts[0]);
      LeadsReady(Apply(s, acts[0]), acts[1..], s');
    }
  }

  lemma {:induction false} LeadsFits(ok: (Sys, Action) -> bool, s: Sys, acts: seq<Action>, s': Sys)
    requires FitInv(s) && Leads(ok, s, acts, s') && forall s, a :: ok(s, a) ==> Guarded(s, a)
    ensures FitInv(s')
    decreases |acts|
  {
    if acts != [] {
      assert Guarded(s, acts[0]);
      StepFits(s, acts[0]);
      LeadsFits(ok, Apply(s, acts[0]), acts[1..], s');
    }
  }

  lemma OneStep(ok: (Sys, Action) -> bool, s: Sys, a: Action)
    requires Enabled(s, a) && ok(s, a)
    ensures Leads(ok, s, [a], Apply(s, a))
  {
  }

  /** What the continuations below consist of: steps of the dispatcher and of the
      reconciler, and reports on existing services. */
  predicate Harmless(a: Action) {
    a.Handle? ==> a.t.TSync? && a.t.remote.status != Lost
  }

  ghost predicate Permits(ok: (Sys, Action) -> bool) {
    forall s, a :: Harmless(a) ==> ok(s, a)
  }

  lemma AllPermit()
    ensures Permits(Unrushed) && Permits(Uncut) && Permits(Guarded)
  {
  }

  lemma Then(ok: (Sys, Action) -> bool, s: Sys, acts: seq<Action>, s': Sys, a: Action)
    requires Permits(ok) && Leads(ok, s, acts, s') && Enabled(s', a) && Harmless(a)
    ensures Leads(ok, s, acts + [a], Apply(s', a))
  {
    OneStep(ok, s', a);
    LeadsOn(ok, s, acts, s', [a], Apply(s', a));
  }

  // ---------------------------------------------- a start in the read window

  /** From the choice of a job to its creation. */
  lemma PrepareAndCreate(ok: (Sys, Action) -> bool, s: Sys, k: Key, inventory: set<Resource>) returns (acts: seq<Action>, s': Sys)
    requires Permits(ok) && s.disp == Chosen(k) && k.kind == JobOp
    ensures Leads(ok, s, acts, s')
    ensures s' == s.(db := s'.db, disp := Started(k), created := s.created + [k.id])
    ensures s'.db == s.db.(baselines := s'.db.baselines)
  {
    Then(ok, s, [], s, Capture(inventory));
    var c := Apply(s, Capture(inventory));
    acts := [] + [Capture(inventory)];
    if k !in s.db.baselines {
      Then(ok, s, acts, c, Save);
      acts, c := acts + [Save], Apply(c, Save);
    }
    Then(ok, s, acts, c, Create(Success));
    acts, s' := acts + [Create(Success)], Apply(c, Create(Success));
  }

  /** The job of row `n` waits at the head of the queue, committed. */
  ghost predicate WaitsCommitted(db: Db, n: nat) {
    && Base(db) && n < |db.queue| && db.queue[n].state == Queued && NextOperation(db) == n
    && db.queue[n].key.kind == JobOp && Committed(db, db.queue[n].key.id)
    && db.jobs[db.queue[n].key.id].status == JobQueued
  }

  /** A started job whose row is the head of the queue is acquired again. */
  lemma AcquireAgain(ok: (Sys, Action) -> bool, s: Sys, n: nat, now: int) returns (acts: seq<Action>, s': Sys)
    requires Permits(ok) && s.disp.Started? && WaitsCommitted(s.db, n) && s.db.queue[n].key == s.disp.k
    ensures Leads(ok, s, acts, s') && s'.disp == Chosen(s.disp.k) && s'.created == s.created
    ensures s'.db == s.db.(queue := s.db.queue[n := s.db.queue[n].(state := Admitting, leasedAt := Some(now))])
  {
    var k := s.disp.k;
    MatchesAt(s.db.queue, n, {Admitting});
    Then(ok, s, [], s, Activate);
    var a := Apply(s, Activate);
    assert a.db == s.db;
    Then(ok, s, [] + [Activate], a, Acquire(now));
    var b := Apply(a, Acquire(now));
    AcquireTakesNext(s.db, now);
    assert b.db.jobs == s.db.jobs && b.disp == Admitted(k);
    Then(ok, s, [] + [Activate] + [Acquire(now)], b, Read);
    acts, s' := [] + [Activate] + [Acquire(now)] + [Read], Apply(b, Read);
  }

  lemma StartEffect(db: Db, n: nat, digest: string)
    requires Base(db) && n < |db.queue| && db.queue[n].state == Admitting && db.queue[n].key.kind == JobOp
    requires db.queue[n].key.id in db.jobs && db.jobs[db.queue[n].key.id].status == Preparing
    ensures var id := db.queue[n].key.id; var db' := Next(db, TQueueJob(id, digest));
            WaitsCommitted(db', n) && db'.queue[n].key == JobKey(id)
  {
    var id := db.queue[n].key.id;
    assert db.queue[n].key == JobKey(id);
    StartQueue(db, n, digest);
    FrontAgain(db.queue, n, db.queue[n].(state := Queued, leasedAt := None));
    assert Base(Next(db, TQueueJob(id, digest))) by { TxnAlways(db, TQueueJob(id, digest)); }
  }

  lemma StartQueue(db: Db, n: nat, digest: string)
    requires UniqueKeys(db.queue) && OneReserved(db.queue) && n < |db.queue|
    requires db.queue[n].state == Admitting && db.queue[n].key == JobKey(db.queue[n].key.id)
    requires db.queue[n].key.id in db.jobs && db.jobs[db.queue[n].key.id].status == Preparing
    ensures var id := db.queue[n].key.id; var r := QueueJob(db, id, digest);
            && r.Ok? && r.db.queue == db.queue[n := db.queue[n].(state := Queued, leasedAt := None)]
            && Committed(r.db, id) && r.db.jobs[id].status == JobQueued
  {
  }

  /** The admitted row, back in the queue, is the next to be admitted. */
  lemma FrontAgain(q: seq<QueueRow>, n: nat, row: QueueRow)
    requires OneReserved(q) && Fifo(q) && n < |q| && q[n].state == Admitting && row.state == Queued
    ensures !AnyIn(q[n := row], RESERVED) && Oldest(q[n := row], {Queued}) == n
  {
    var q' := q[n := row];
    forall i | 0 <= i < |q'| ensures q'[i].state !in RESERVED && (i < n ==> q'[i].state == Released) {
      if i != n { assert q[i].state !in RESERVED; }
    }
    var m := Oldest(q', {Queued});
    assert q'[n].state in {Queued};
  }

  lemma BaselinesAside(db: Db, db': Db, n: nat)
    requires WaitsCommitted(db, n) && db' == db.(baselines := db'.baselines)
    ensures WaitsCommitted(db', n)
  {
  }

  /** A start in the read window: the job is created with its row in the queue. */
  lemma StartAndCreate(ok: (Sys, Action) -> bool, s: Sys, digest: string, inventory: set<Resource>)
    returns (acts: seq<Action>, s': Sys, n: nat)
    requires Permits(ok) && RunInv(s) && ReadsPreparing(s) && At(s.db, s.disp.k) == Some(Admitting)
    ensures Enabled(s, Handle(TQueueJob(s.disp.k.id, digest)))
    ensures Leads(ok, Apply(s, Handle(TQueueJob(s.disp.k.id, digest))), acts, s')
    ensures s'.created == s.created + [s.disp.k.id] && s'.disp == Started(s.disp.k) && s.disp.k.kind == JobOp
    ensures WaitsCommitted(s'.db, n) && s'.db.queue[n].key == s.disp.k && At(s'.db, s.disp.k) == Some(Queued)
  {
    var k := s.disp.k;
    assert k == JobKey(k.id);
    n := RowAt(s.db, k);
    StartEffect(s.db, n, digest);
    var a := Apply(s, Handle(TQueueJob(k.id, digest)));
    Then(ok, a, [], a, Read);
    var b := Apply(a, Read);
    var acts1, c := PrepareAndCreate(ok, b, k, inventory);
    LeadsOn(ok, a, [] + [Read], b, acts1, c);
    BaselinesAside(b.db, c.db, n);
    AtRow(c.db.queue, n);
    acts, s' := [] + [Read] + acts1, c;
  }

  /** And then acquired again. */
  lemma StartAndReacquire(ok: (Sys, Action) -> bool, s: Sys, digest: string, inventory: set<Resource>, now: int)
    returns (acts: seq<Action>, s': Sys, n: nat)
    requires Permits(ok) && RunInv(s) && ReadsPreparing(s) && At(s.db, s.disp.k) == Some(Admitting)
    ensures Enabled(s, Handle(TQueueJob(s.disp.k.id, digest)))
    ensures Leads(ok, Apply(s, Handle(TQueueJob(s.disp.k.id, digest))), acts, s')
    ensures s'.created == s.created + [s.disp.k.id] && s'.disp == Chosen(s.disp.k) && s.disp.k.kind == JobOp
    ensures Acquired(s'.db, n) && s'.db.queue[n].key == s.disp.k
  {
    var acts1, c, m := StartAndCreate(ok, s, digest, inventory);
    n := m;
    var acts2, d := AcquireAgain(ok, c, n, now);
    LeadsOn(ok, Apply(s, Handle(TQueueJob(s.disp.k.id, digest))), acts1, c, acts2, d);
    acts, s' := acts1 + acts2, d;
    AcquiredAgain(c.db, d.db, n, now);
  }

  /** The job of row `n` is admitted, with the record of a job to be run. */
  ghost predicate Acquired(db: Db, n: nat) {
    && UniqueKeys(db.queue) && OneReserved(db.queue) && n < |db.queue| && db.queue[n].state == Admitting
    && db.queue[n].key.id in db.jobs && db.jobs[db.queue[n].key.id].status == JobQueued
  }

  lemma AcquiredAgain(db: Db, db': Db, n: nat, now: int)
    requires WaitsCommitted(db, n)
    requires db' == db.(queue := db.queue[n := db.queue[n].(state := Admitting, leasedAt := Some(now))])
    ensures Acquired(db', n)
  {
    forall i, j | 0 <= i < j < |db'.queue| ensures db'.queue[i].key != db'.queue[j].key {
      assert db.queue[i].key != db.queue[j].key;
    }
  }

  /** Wherever a run stands between acquiring a preparing job and reading it, a
      `StartJob` at that point can make the scheduler create the job twice. */
  lemma StartInReadWindow(ok: (Sys, Action) -> bool, s: Sys, digest: string, inventory: set<Resource>, now: int)
    returns (acts: seq<Action>, s': Sys)
    requires Permits(ok) && RunInv(s) && ReadsPreparing(s) && At(s.db, s.disp.k) == Some(Admitting)
    ensures Enabled(s, Handle(TQueueJob(s.disp.k.id, digest)))
    ensures Leads(ok, Apply(s, Handle(TQueueJob(s.disp.k.id, digest))), acts, s')
    ensures s'.created == s.created + [s.disp.k.id, s.disp.k.id]
  {
    var acts1, d, n := StartAndReacquire(ok, s, digest, inventory, now);
    var acts2, e := PrepareAndCreate(ok, d, s.disp.k, inventory);
    LeadsOn(ok, Apply(s, Handle(TQueueJob(s.disp.k.id, digest))), acts1, d, acts2, e);
    acts, s' := acts1 + acts2, e;
  }

  /** The reconciler lists the job and the dispatcher puts it back. */
  lemma ListAndRequeue(ok: (Sys, Action) -> bool, s: Sys, n: nat) returns (acts: seq<Action>, s': Sys)
    requires Permits(ok) && Acquired(s.db, n) && s.disp == Chosen(s.db.queue[n].key) && s.disp.k.kind == JobOp
    ensures Leads(ok, s, acts, s') && s'.created == s.created && s.disp.k.id in s'.listed
    ensures s'.db == s.db.(queue := s.db.queue[n := s.db.queue[n].(state := Queued, leasedAt := None)])
    ensures OneReserved(s'.db.queue) && At(s'.db, s.disp.k) == Some(Queued)
  {
    var k := s.disp.k;
    assert k == JobKey(k.id);
    MatchesAt(s.db.queue, n, EXECUTING);
    Then(ok, s, [], s, List(k.id));
    var a := Apply(s, List(k.id));
    Then(ok, s, [] + [List(k.id)], a, PrepareFails(false));
    acts, s' := [] + [List(k.id)] + [PrepareFails(false)], Apply(a, PrepareFails(false));
    BackInQueue(a.db, n);
  }

  /** The report on the service of the first creation finds the row in the queue. */
  lemma ReportAfterRequeue(ok: (Sys, Action) -> bool, s: Sys, n: nat) returns (acts: seq<Action>, s': Sys)
    requires Permits(ok) && Acquired(s.db, n) && s.disp == Chosen(s.db.queue[n].key)
    requires s.disp.k.kind == JobOp && s.disp.k.id in s.created
    ensures Leads(ok, s, acts, s') && WaitsWith(s'.db, s.disp.k, Running)
  {
    var k := s.disp.k;
    assert k == JobKey(k.id);
    var acts1, b := ListAndRequeue(ok, s, n);
    var t := TSync(k.id, Remote(Running, None, None, false));
    Then(ok, s, acts1, b, Decide(t));
    var c := Apply(b, Decide(t));
    Then(ok, s, acts1 + [Decide(t)], c, Handle(t));
    acts, s' := acts1 + [Decide(t)] + [Handle(t)], Apply(c, Handle(t));
    LateReport(b.db, k, t.remote);
  }

  /** Job `k` waits in the queue with a status it should not have there. */
  predicate WaitsWith(db: Db, k: Key, status: JobStatus) {
    k.id in db.jobs && db.jobs[k.id].status == status && At(db, k) == Some(Queued)
  }

  lemma LateReport(db: Db, k: Key, remote: Remote)
    requires OneReserved(db.queue) && WaitsWith(db, k, JobQueued) && remote.status == Running
    ensures WaitsWith(Next(db, TSync(k.id, remote)), k, Running)
  {
  }

  lemma WaitsDecoupled(db: Db, k: Key, status: JobStatus)
    requires WaitsWith(db, k, status) && k.kind == JobOp && (status == Running || status.Terminal())
    ensures !Runs.Coupled(db)
  {
    assert k == JobKey(k.id) && !Runs.JobFits(db, k.id);
  }

  lemma BackInQueue(db: Db, n: nat)
    requires UniqueKeys(db.queue) && OneReserved(db.queue) && n < |db.queue| && db.queue[n].state == Admitting
    ensures var k := db.queue[n].key; var db' := Next(db, TRequeue(k));
            && db' == db.(queue := db.queue[n := db.queue[n].(state := Queued, leasedAt := None)])
            && OneReserved(db'.queue) && At(db', k) == Some(Queued)
  {
    MatchesAt(db.queue, n, {Admitting});
    UpdateOne(db.queue, n, {Admitting}, Patch(Some(Queued), Clear, false));
    FreedRow(db, n, Queued);
    AtUpdated(db.queue, n, db.queue[n].(state := Queued, leasedAt := None));
  }

  /** And such a start can leave a running job with its row in the queue. */
  lemma StartDecouples(ok: (Sys, Action) -> bool, s: Sys, digest: string) returns (acts: seq<Action>, s': Sys)
    requires Permits(ok) && RunInv(s) && ReadsPreparing(s) && At(s.db, s.disp.k) == Some(Admitting)
    ensures Enabled(s, Handle(TQueueJob(s.disp.k.id, digest)))
    ensures Leads(ok, Apply(s, Handle(TQueueJob(s.disp.k.id, digest))), acts, s')
    ensures WaitsWith(s'.db, s.disp.k, Running) && !Runs.Coupled(s'.db)
  {
    var acts1, d, n := StartAndReacquire(ok, s, digest, {}, 0);
    assert d.created[|s.created|] == s.disp.k.id;
    var acts2, e := ReportAfterRequeue(ok, d, n);
    LeadsOn(ok, Apply(s, Handle(TQueueJob(s.disp.k.id, digest))), acts1, d, acts2, e);
    acts, s' := acts1 + acts2, e;
    WaitsDecoupled(e.db, s.disp.k, Running);
  }

  // --------------------------------------- a failure or a cancellation there

  /** A failure or a cancellation of a job that is preparing finishes the record
      without a digest. */
  predicate Finishes(t: Txn, id: string) {
    (t.TCancelJob? && t.id == id) || (t.TFailJob? && t.id == id)
  }

  lemma FinishEffect(db: Db, k: Key, t: Txn)
    requires Base(db) && k == JobKey(k.id) && !Waiting(At(db, k))
    requires k.id in db.jobs && db.jobs[k.id].status == Preparing && Finishes(t, k.id)
    ensures var db' := Next(db, t);
            k.id in db'.jobs && db'.jobs[k.id].status.Terminal() && db'.jobs[k.id].digest.None?
  {
    PreparingIsUncommitted(db, k.id);
    var n := RowAt(db, k);
    assert !TripsIndex(db, t) by { MatchesAt(db.queue, n, {Queued}); }
    OnlyQueuedCleanupTrips(db, t);
  }

  /** A failure or a cancellation in the read window gets a finished job created,
      with no root digest committed. */
  lemma FinishInReadWindow(ok: (Sys, Action) -> bool, s: Sys, t: Txn, inventory: set<Resource>)
    returns (acts: seq<Action>, s': Sys)
    requires Permits(ok) && RunInv(s) && ReadsPreparing(s) && !Waiting(At(s.db, s.disp.k))
    requires Enabled(s, Handle(t)) && Finishes(t, s.disp.k.id)
    ensures Leads(ok, Apply(s, Handle(t)), acts, s')
    ensures s'.created == s.created + [s.disp.k.id]
    ensures s.disp.k.id in s'.db.jobs && s'.db.jobs[s.disp.k.id].status.Terminal() && !Committed(s'.db, s.disp.k.id)
  {
    var k := s.disp.k;
    FinishEffect(s.db, k, t);
    var a := Apply(s, Handle(t));
    Then(ok, a, [], a, Read);
    var b := Apply(a, Read);
    var acts1, c := PrepareAndCreate(ok, b, k, inventory);
    LeadsOn(ok, a, [] + [Read], b, acts1, c);
    acts, s' := [] + [Read] + acts1, c;
  }

  lemma CancelEffect(db: Db, k: Key, now: int)
    requires Base(db) && k == JobKey(k.id) && At(db, k) == Some(Admitting)
    requires k.id in db.jobs && db.jobs[k.id].status == Preparing
    ensures var db' := Next(db, TCancelJob(k.id, now));
            && Base(db') && At(db', k) == Some(Admitting)
            && k.id in db'.jobs && db'.jobs[k.id].status == Cancelled
  {
    var n := RowAt(db, k);
    CancelsAdmitting(db, n, now);
    assert Base(Next(db, TCancelJob(k.id, now))) by { TxnAlways(db, TCancelJob(k.id, now)); }
  }

  lemma CancelsAdmitting(db: Db, n: nat, now: int)
    requires UniqueKeys(db.queue) && OneReserved(db.queue) && n < |db.queue| && db.queue[n].state == Admitting
    requires var k := db.queue[n].key; k == JobKey(k.id) && k.id in db.jobs && db.jobs[k.id].status == Preparing
    ensures var k := db.queue[n].key; var db' := Next(db, TCancelJob(k.id, now));
            && db'.queue == db.queue
            && k.id in db'.jobs && db'.jobs[k.id].status == Cancelled
  {
    MatchesAt(db.queue, n, {Queued});
    UpdateNone(db.queue, db.queue[n].key, {Queued}, Move(Released));
  }

  /** A cancellation there can put a finished job back into the queue. */
  lemma CancelDecouples(ok: (Sys, Action) -> bool, s: Sys, now: int) returns (acts: seq<Action>, s': Sys)
    requires Permits(ok) && RunInv(s) && ReadsPreparing(s) && At(s.db, s.disp.k) == Some(Admitting)
    ensures Enabled(s, Handle(TCancelJob(s.disp.k.id, now)))
    ensures Leads(ok, Apply(s, Handle(TCancelJob(s.disp.k.id, now))), acts, s')
    ensures WaitsWith(s'.db, s.disp.k, Cancelled) && !Runs.Coupled(s'.db)
  {
    var k := s.disp.k;
    CancelEffect(s.db, k, now);
    var a := Apply(s, Handle(TCancelJob(k.id, now)));
    Then(ok, a, [], a, Read);
    var b := Apply(a, Read);
    Then(ok, a, [] + [Read], b, PrepareFails(false));
    acts, s' := [] + [Read] + [PrepareFails(false)], Apply(b, PrepareFails(false));
    var n := RowAt(b.db, k);
    BackInQueue(b.db, n);
    WaitsDecoupled(s'.db, k, Cancelled);
  }

  // --------------------------------------- verdicts and cleanups out of place

  /** A lost verdict on an unfinished job whose row does not execute. */
  lemma LostDecouples(db: Db, id: string, remote: Remote)
    requires Inv(db) && PastPreparing(db, JobKey(id)) && remote.status == Lost && !SyncGuard(db, id, remote)
    ensures WaitsWith(Next(db, TSync(id, remote)), JobKey(id), Lost)
  {
    var n := RowAt(db, JobKey(id));
    MatchesAt(db.queue, n, EXECUTING);
    UpdateNone(db.queue, JobKey(id), EXECUTING, Move(Terminalizing));
  }

  /** A cleanup of an open row whose job is not finished. */
  lemma CleanupDecouples(db: Db, k: Key)
    requires Inv(db) && k.kind == JobOp && !CleanupGuard(db, k)
    ensures !Runs.Coupled(Next(db, TBeginCleanup(k)))
  {
    var n := Find(db, k, OPEN);
    assert RowCoupled(db, db.queue[n]);
    if AnyIn(db.queue, RESERVED) { MatchesAt(db.queue, n, {Queued}); }
    TornDown(db, n);
  }

  // -------------------------------------------------- the conditions are exact

  /** Every unrushed continuation of `s` creates each job once. */
  ghost predicate StaysOnce(s: Sys) {
    forall acts, s' :: Leads(Unrushed, s, acts, s') ==> CreatedOnce(s')
  }

  /** Every unrushed continuation of `s` leaves created jobs out of the queue. */
  ghost predicate StaysOut(s: Sys) {
    forall acts, s' :: Leads(Unrushed, s, acts, s') ==> CreatedOut(s')
  }

  /** Every uncut continuation of `s` creates jobs with their digest. */
  ghost predicate StaysReady(s: Sys) {
    forall acts, s' :: Leads(Uncut, s, acts, s') ==> CreatedReady(s')
  }

  /** Every guarded continuation of `s` keeps records and rows coupled. */
  ghost predicate StaysCoupled(s: Sys) {
    forall acts, s' :: Leads(Guarded, s, acts, s') ==> Runs.Coupled(s'.db)
  }

  lemma RushedFails(s: Sys, t: Txn)
    requires OnceInv(s) && Enabled(s, Handle(t)) && !Unrushed(s, Handle(t))
    ensures !StaysOnce(Apply(s, Handle(t))) && !StaysOut(Apply(s, Handle(t)))
  {
    OpenIsAdmitting(s.db, s.disp.k);
    RushedTwice(s, t);
    RushedWaits(s, t);
  }

  lemma RushedTwice(s: Sys, t: Txn)
    requires RunInv(s) && ReadsPreparing(s) && At(s.db, s.disp.k) == Some(Admitting) && t.TQueueJob? && t.id == s.disp.k.id
    ensures Enabled(s, Handle(t)) && !StaysOnce(Apply(s, Handle(t)))
  {
    AllPermit();
    var acts, s1 := StartInReadWindow(Unrushed, s, t.digest, {}, 0);
    assert s1.created[|s.created|] == s1.created[|s.created| + 1];
    assert Leads(Unrushed, Apply(s, Handle(t)), acts, s1) && !CreatedOnce(s1);
  }

  lemma RushedWaits(s: Sys, t: Txn)
    requires RunInv(s) && ReadsPreparing(s) && At(s.db, s.disp.k) == Some(Admitting) && t.TQueueJob? && t.id == s.disp.k.id
    ensures Enabled(s, Handle(t)) && !StaysOut(Apply(s, Handle(t)))
  {
    AllPermit();
    var acts, s1, n := StartAndCreate(Unrushed, s, t.digest, {});
    assert s1.created[|s.created|] == s.disp.k.id && s.disp.k == JobKey(s.disp.k.id);
    assert Leads(Unrushed, Apply(s, Handle(t)), acts, s1) && !CreatedOut(s1);
  }

  lemma OpenIsAdmitting(db: Db, k: Key)
    requires UniqueKeys(db.queue) && Matches(db.queue, k, {Queued, Admitting}) && !Waiting(At(db, k))
    ensures At(db, k) == Some(Admitting)
  {
    var n := Find(db, k, {Queued, Admitting});
    AtRow(db.queue, n);
  }

  lemma CutFails(s: Sys, t: Txn)
    requires DigestInv(s) && Enabled(s, Handle(t)) && !Uncut(s, Handle(t))
    ensures !StaysReady(Apply(s, Handle(t)))
  {
    AllPermit();
    var acts, s' := FinishInReadWindow(Uncut, s, t, {});
    assert s'.created[|s.created|] == s.disp.k.id;
    assert Leads(Uncut, Apply(s, Handle(t)), acts, s') && !CreatedReady(s');
  }

  lemma UnguardedFails(s: Sys, t: Txn) returns (acts: seq<Action>, s': Sys)
    requires FitInv(s) && Enabled(s, Handle(t)) && !Guarded(s, Handle(t))
    ensures Leads(Guarded, Apply(s, Handle(t)), acts, s') && !Runs.Coupled(s'.db)
  {
    AllPermit();
    if t.TQueueJob? {
      acts, s' := StartDecouples(Guarded, s, t.digest);
    } else if t.TCancelJob? {
      acts, s' := CancelDecouples(Guarded, s, t.now);
    } else {
      acts, s' := [], Apply(s, Handle(t));
      LateCallDecouples(s, t);
    }
  }

  lemma LateCallDecouples(s: Sys, t: Txn)
    requires RunInv(s) && JobsFit(s.db) && Enabled(s, Handle(t)) && !Guard(s.db, t)
    requires t.TBeginCleanup? || (t.TSync? && t.remote.status == Lost)
    ensures !Runs.Coupled(Next(s.db, t))
  {
    if t.TSync? {
      Outsiders(s, t);
      LostDecouples(s.db, t.id, t.remote);
      WaitsDecoupled(Next(s.db, t), JobKey(t.id), Lost);
    } else {
      assert t.k.kind == JobOp by { assert IntentRuns(s, t); }
      CleanupDecouples(s.db, t.k);
    }
  }

  /** In every state of an unrushed run, a transaction from outside the
      dispatcher is unrushed exactly when no unrushed continuation after it
      creates a job twice, and exactly when none has a created job in the queue. */
  lemma OnceIsExact(s: Sys, t: Txn)
    requires OnceInv(s) && Enabled(s, Handle(t))
    ensures Unrushed(s, Handle(t)) <==> StaysOnce(Apply(s, Handle(t)))
    ensures Unrushed(s, Handle(t)) <==> StaysOut(Apply(s, Handle(t)))
  {
    var a := Apply(s, Handle(t));
    if Unrushed(s, Handle(t)) {
      StepOnce(s, Handle(t));
      forall acts, s' | Leads(Unrushed, a, acts, s') ensures CreatedOnce(s') && CreatedOut(s') { LeadsOnce(a, acts, s'); }
    } else {
      RushedFails(s, t);
    }
  }

  /** In every state of an uncut run, it is uncut exactly when no uncut
      continuation after it creates a job without its digest. */
  lemma DigestIsExact(s: Sys, t: Txn)
    requires DigestInv(s) && Enabled(s, Handle(t))
    ensures Uncut(s, Handle(t)) <==> StaysReady(Apply(s, Handle(t)))
  {
    var a := Apply(s, Handle(t));
    if Uncut(s, Handle(t)) {
      StepReady(s, Handle(t));
      forall acts, s' | Leads(Uncut, a, acts, s') ensures CreatedReady(s') { LeadsReady(a, acts, s'); }
    } else {
      CutFails(s, t);
    }
  }

  /** In every state of a guarded run, it is guarded exactly when no guarded
      continuation after it leaves a job whose status does not fit its row. */
  lemma CouplingIsExact(s: Sys, t: Txn)
    requires FitInv(s) && Enabled(s, Handle(t))
    ensures Guarded(s, Handle(t)) <==> StaysCoupled(Apply(s, Handle(t)))
  {
    var a := Apply(s, Handle(t));
    if Guarded(s, Handle(t)) {
      StepFits(s, Handle(t));
      forall acts, s' | Leads(Guarded, a, acts, s') ensures Runs.Coupled(s'.db) {
        LeadsFits(Guarded, a, acts, s');
        Runs.InvIsCoupled(s'.db);
      }
    } else {
      var acts, s' := UnguardedFails(s, t);
      assert Leads(Guarded, a, acts, s') && !Runs.Coupled(s'.db);
    }
  }

  // ------------------------------------------------------ from the empty store

  /** The database after the first preparation is accepted. */
  function FirstJob(id: string): Db {
    Db([QueueRow(JobKey(id), Queued, 0, Some(0), 0)], map[id := Job(Preparing, None, None, None, false)], map[], map[])
  }

  lemma FirstJobIsCreated(id: string)
    ensures Next(EMPTY, TCreateJob(id, 0)) == FirstJob(id)
  {
  }

  lemma FirstJobIsNext(id: string)
    ensures Inv(FirstJob(id)) && NextOperation(FirstJob(id)) == 0
  {
    var db := FirstJob(id);
    assert db.queue[0].state == Queued && db.queue[0].key == JobKey(id);
    assert HasRow(db.queue, JobKey(id));
    assert RowCoupled(db, db.queue[0]);
  }

  /** The window is reached in two steps from the empty store. */
  lemma ReadWindowIsReachable(id: string) returns (s: Sys)
    ensures Reached([Handle(TCreateJob(id, 0))] + [Acquire(1)], s)
    ensures s.disp == Admitted(JobKey(id)) && ReadsPreparing(s) && s.db.baselines == map[]
    ensures |s.db.queue| == 1 && s.db.queue[0].key == JobKey(id) && s.db.queue[0].state == Admitting
  {
    var a := Apply(START, Handle(TCreateJob(id, 0)));
    FirstJobIsCreated(id);
    FirstJobIsNext(id);
    AcquireTakesNext(a.db, 1);
    s := Apply(a, Acquire(1));
    OneStep(Calm, START, Handle(TCreateJob(id, 0)));
    Extend([Handle(TCreateJob(id, 0))], a, Acquire(1));
  }

  /** `s` is reached from the empty store, each action meeting every condition. */
  ghost predicate Reached(acts: seq<Action>, s: Sys) {
    Leads(Calm, START, acts, s)
  }

  lemma Extend(acts: seq<Action>, s: Sys, a: Action)
    requires Reached(acts, s) && Enabled(s, a) && Calm(s, a)
    ensures Reached(acts + [a], Apply(s, a))
  {
    OneStep(Calm, s, a);
    LeadsOn(Calm, START, acts, s, [a], Apply(s, a));
  }

  lemma ReachedInv(acts: seq<Action>, s: Sys)
    requires Reached(acts, s)
    ensures Inv(s.db)
  {
    LeadsFits(Calm, START, acts, s);
  }

  /** Actions of callers and dispatcher that touch no runtime and no cleanup. */
  predicate Ordinary(a: Action) {
    a.List? || a.Acquire? || a.Read? || a.Decide? || (a.Handle? && (a.t.TCreateJob? || a.t.TQueueJob?))
  }

  predicate AllOrdinary(acts: seq<Action>) {
    forall a :: a in acts ==> Ordinary(a)
  }

  /** The only operation of the store is job `id`, committed and not run yet. */
  predicate OnlyJob(db: Db, id: string, state: QueueState) {
    && |db.queue| == 1 && db.queue[0].key == JobKey(id) && db.queue[0].state == state
    && id in db.jobs && db.jobs[id].status == JobQueued && db.jobs[id].digest.Some?
  }

  lemma AcquireOnly(db: Db, id: string, now: int)
    requires OnlyJob(db, id, Queued)
    ensures NextOperation(db) == 0 && OnlyJob(Next(db, TAcquire(now)), id, Admitting)
    ensures Next(db, TAcquire(now)).baselines == db.baselines
  {
    AcquireTakesNext(db, now);
    assert db.queue[0].state in {Queued};
  }

  /** A committed job, alone in the queue, is acquired and read. */
  lemma AcquireAndRead(acts: seq<Action>, s: Sys, id: string, now: int) returns (more: seq<Action>, s': Sys)
    requires Reached(acts, s) && s.disp.Idle? && OnlyJob(s.db, id, Queued)
    ensures Reached(more, s') && s'.disp == Chosen(JobKey(id)) && OnlyJob(s'.db, id, Admitting)
    ensures s'.db.baselines == s.db.baselines && (AllOrdinary(acts) ==> AllOrdinary(more))
  {
    AcquireOnly(s.db, id, now);
    Extend(acts, s, Acquire(now));
    var a := Apply(s, Acquire(now));
    Extend(acts + [Acquire(now)], a, Read);
    more, s' := acts + [Acquire(now)] + [Read], Apply(a, Read);
  }

  lemma StartOnly(db: Db, id: string, digest: string)
    requires |db.queue| == 1 && db.queue[0].key == JobKey(id) && db.queue[0].state == Admitting
    requires id in db.jobs && db.jobs[id].status == Preparing
    ensures OnlyJob(Next(db, TQueueJob(id, digest)), id, Queued) && Next(db, TQueueJob(id, digest)).baselines == db.baselines
  {
    StartQueue(db, 0, digest);
  }

  /** A job is prepared, started and chosen for execution. */
  lemma ChosenIsReachable(id: string, digest: string) returns (acts: seq<Action>, s: Sys)
    ensures Reached(acts, s) && s.disp == Chosen(JobKey(id)) && OnlyJob(s.db, id, Admitting) && s.db.baselines == map[]
    ensures AllOrdinary(acts)
  {
    var a := ReadWindowIsReachable(id);
    var acts1 := [Handle(TCreateJob(id, 0))] + [Acquire(1)];
    Extend(acts1, a, Read);
    var b := Apply(a, Read);
    StartOnly(b.db, id, digest);
    var start := Handle(TQueueJob(id, digest));
    Extend(acts1 + [Read], b, start);
    acts, s := AcquireAndRead(acts1 + [Read] + [start], Apply(b, start), id, 2);
  }

  /** The reconciler lists it then. */
  lemma ChosenIsListed(id: string, digest: string) returns (acts: seq<Action>, s: Sys)
    ensures Reached(acts, s) && s.disp == Chosen(JobKey(id)) && OnlyJob(s.db, id, Admitting) && s.db.baselines == map[]
    ensures id in s.listed && AllOrdinary(acts)
  {
    var acts1, a := ChosenIsReachable(id, digest);
    MatchesAt(a.db.queue, 0, EXECUTING);
    Extend(acts1, a, List(id));
    acts, s := acts1 + [List(id)], Apply(a, List(id));
  }

  lemma RequeueOnly(db: Db, id: string)
    requires OnlyJob(db, id, Admitting)
    ensures var db' := Next(db, TRequeue(JobKey(id)));
            OnlyJob(db', id, Queued) && db' == db.(queue := db'.queue)
  {
    MatchesAt(db.queue, 0, {Admitting});
    UpdateOne(db.queue, 0, {Admitting}, Patch(Some(Queued), Clear, false));
  }

  lemma BaselineIsReachable(id: string, digest: string, inventory: set<Resource>) returns (acts: seq<Action>, s: Sys)
    ensures Reached(acts, s) && s.disp == Prepared(JobKey(id)) && OnlyJob(s.db, id, Admitting)
    ensures s.db.baselines == map[JobKey(id) := inventory]
  {
    var acts1, a := ChosenIsReachable(id, digest);
    Extend(acts1, a, Capture(inventory));
    var b := Apply(a, Capture(inventory));
    Extend(acts1 + [Capture(inventory)], b, Save);
    acts, s := acts1 + [Capture(inventory)] + [Save], Apply(b, Save);
  }

  /** A preparation that fails after its baseline was saved: the job is admitted
      again with that baseline. */
  lemma ReadmissionIsReachable(id: string, digest: string, inventory: set<Resource>) returns (acts: seq<Action>, s: Sys)
    ensures Reached(acts, s) && s.disp == Chosen(JobKey(id))
    ensures JobKey(id) in s.db.baselines && s.db.baselines[JobKey(id)] == inventory
  {
    var acts1, c := BaselineIsReachable(id, digest, inventory);
    RequeueOnly(c.db, id);
    var fails := PrepareFails(false);
    Extend(acts1, c, fails);
    acts, s := AcquireAndRead(acts1 + [fails], Apply(c, fails), id, 3);
  }

  /** The reconciler's verdict that a service is missing, delivered after the job
      went back to the queue, leaves a finished job waiting for admission. */
  lemma LostAfterRequeue(id: string, digest: string, remote: Remote) returns (acts: seq<Action>, s: Sys)
    requires remote.status == Lost
    ensures Reached(acts, s) && Enabled(s, Handle(TSync(id, remote)))
    ensures var db := Apply(s, Handle(TSync(id, remote))).db;
            && id in db.jobs && db.jobs[id].status == Lost
            && At(db, JobKey(id)) == Some(Queued) && !Inv(db)
  {
    var t := TSync(id, remote);
    var acts1, a := ChosenIsListed(id, digest);
    Extend(acts1, a, Decide(t));
    var b := Apply(a, Decide(t));
    RequeueOnly(b.db, id);
    var fails := PrepareFails(false);
    Extend(acts1 + [Decide(t)], b, fails);
    acts, s := acts1 + [Decide(t)] + [fails], Apply(b, fails);
    ReachedInv(acts, s);
    LostOnly(s.db, id, remote);
  }

  lemma LostOnly(db: Db, id: string, remote: Remote)
    requires Inv(db) && OnlyJob(db, id, Queued) && remote.status == Lost
    ensures var db' := Next(db, TSync(id, remote));
            !Inv(db') && id in db'.jobs && db'.jobs[id].status == Lost && At(db', JobKey(id)) == Some(Queued)
  {
    MatchesAt(db.queue, 0, EXECUTING);
    GuardIsExact(db, TSync(id, remote));
    UpdateRow(db.queue, 0, EXECUTING, Move(Terminalizing));
    AtRow(db.queue, 0);
  }

  /** The sweep of stale preparations cancels a job that was started since it was
      listed, which only flags it, and requests its cleanup all the same: the
      row is torn down under a job still to be run. */
  lemma SweepAfterStart(id: string, digest: string, now: int) returns (acts: seq<Action>, s: Sys)
    ensures Reached(acts, s) && Enabled(s, Handle(TBeginCleanup(JobKey(id)))) && s.disp == Chosen(JobKey(id))
    ensures var db := Apply(s, Handle(TBeginCleanup(JobKey(id)))).db;
            && id in db.jobs && db.jobs[id].status == JobQueued
            && At(db, JobKey(id)) == Some(Terminalizing) && !Inv(db)
  {
    var t := TBeginCleanup(JobKey(id));
    var acts1, a := ChosenIsReachable(id, digest);
    var cancel := Handle(TCancelJob(id, now));
    FlagOnly(a.db, id, now);
    Extend(acts1, a, cancel);
    var b := Apply(a, cancel);
    Extend(acts1 + [cancel], b, Decide(t));
    acts, s := acts1 + [cancel] + [Decide(t)], Apply(b, Decide(t));
    ReachedInv(acts, s);
    TornDown(s.db, 0);
  }

  lemma FlagOnly(db: Db, id: string, now: int)
    requires OnlyJob(db, id, Admitting)
    ensures OnlyJob(Next(db, TCancelJob(id, now)), id, Admitting)
  {
    MatchesAt(db.queue, 0, EXECUTING);
    UpdateRow(db.queue, 0, {Queued}, Move(Released));
  }

  /** A cleanup request for an open row, with the worker free or held by it. */
  lemma TornDown(db: Db, n: nat)
    requires Inv(db) && n < |db.queue| && db.queue[n].state in OPEN && db.queue[n].key.kind == JobOp
    requires db.queue[n].key.id in db.jobs && !db.jobs[db.queue[n].key.id].status.Terminal()
    requires db.queue[n].state == Queued ==> !AnyIn(db.queue, RESERVED)
    ensures var k := db.queue[n].key; var db' := Next(db, TBeginCleanup(k));
            !Inv(db') && !Runs.Coupled(db') && At(db', k) == Some(Terminalizing) && db'.jobs == db.jobs
  {
    var k := db.queue[n].key;
    MatchesAt(db.queue, n, OPEN);
    MatchesAt(db.queue, n, {Queued});
    GuardIsExact(db, TBeginCleanup(k));
    OnlyQueuedCleanupTrips(db, TBeginCleanup(k));
    UpdateOne(db.queue, n, OPEN, Move(Terminalizing));
    AtUpdated(db.queue, n, db.queue[n].(state := Terminalizing));
    assert k == JobKey(k.id) && !Runs.JobFits(Next(db, TBeginCleanup(k)), k.id);
  }

  // --------------------------------------------------------- builds and leases

  /** The only operation of the store is build `id`. */
  predicate OnlyBuild(db: Db, id: string, state: QueueState, accepted: int) {
    && |db.queue| == 1 && db.queue[0].key == BuildKey(id) && db.queue[0].state == state
    && db.queue[0].acceptedAt == accepted
    && id in db.builds && db.builds[id].status == BuildQueued
  }

  lemma AcquireBuild(db: Db, id: string, accepted: int, now: int)
    requires OnlyBuild(db, id, Queued, accepted)
    ensures NextOperation(db) == 0 && OnlyBuild(Next(db, TAcquire(now)), id, Admitting, accepted)
  {
    AcquireTakesNext(db, now);
    assert db.queue[0].state in {Queued};
  }

  lemma RenewBuild(db: Db, id: string, accepted: int, now: int)
    requires OnlyBuild(db, id, Admitting, accepted)
    ensures OnlyBuild(Next(db, TRenew(BuildKey(id), now)), id, Admitting, accepted)
    ensures Run(db, TRenew(BuildKey(id), now)).Ok?
  {
    MatchesAt(db.queue, 0, OPEN);
    UpdateOne(db.queue, 0, OPEN, Patch(None, Put(now), false));
  }

  lemma RequeueBuild(db: Db, id: string, accepted: int, before: int)
    requires OnlyBuild(db, id, Admitting, accepted) && accepted < before
    ensures Runs.StaleBuild(Next(db, TRequeue(BuildKey(id))), id, before)
  {
    var db' := Next(db, TRequeue(BuildKey(id)));
    MatchesAt(db.queue, 0, {Admitting});
    UpdateOne(db.queue, 0, {Admitting}, Patch(Some(Queued), Clear, false));
    assert Runs.StaleRow(db'.queue[0], BuildKey(id), OPEN, before);
  }

  lemma BuildIsAdmitted(id: string, accepted: int, now: int) returns (s: Sys)
    ensures Reached([Handle(TCreateBuild(id, accepted))] + [Acquire(now)], s)
    ensures s.disp == Chosen(BuildKey(id)) && OnlyBuild(s.db, id, Admitting, accepted)
  {
    var create := Handle(TCreateBuild(id, accepted));
    OneStep(Calm, START, create);
    var a := Apply(START, create);
    assert OnlyBuild(a.db, id, Queued, accepted);
    AcquireBuild(a.db, id, accepted, now);
    Extend([create], a, Acquire(now));
    s := Apply(a, Acquire(now));
  }

  /** A build accepted before the cutoff, acquired and renewed at or after it, is
      listed as stale once its preparation is put off: the requeue forgets both
      heartbeats. */
  lemma RequeueForgetsBuildLease(id: string, accepted: int, before: int, now: int) returns (acts: seq<Action>, s: Sys)
    requires accepted < before <= now
    ensures Reached(acts, s) && Runs.StaleBuild(s.db, id, before)
    ensures acts == [Handle(TCreateBuild(id, accepted)), Acquire(now), Handle(TRenew(BuildKey(id), now)), PrepareFails(false)]
  {
    var b := BuildIsAdmitted(id, accepted, now);
    var acts1 := [Handle(TCreateBuild(id, accepted))] + [Acquire(now)];
    var renew := Handle(TRenew(BuildKey(id), now));
    RenewBuild(b.db, id, accepted, now);
    Extend(acts1, b, renew);
    var c := Apply(b, renew);
    RequeueBuild(c.db, id, accepted, before);
    Extend(acts1 + [renew], c, PrepareFails(false));
    acts, s := acts1 + [renew] + [PrepareFails(false)], Apply(c, PrepareFails(false));
  }

  // ------------------------------------------------------- the audit failure

  /** The failure that `PrepareJob` records when its audit event cannot be
      written, and whose error it ignores, ends the job exactly when the worker
      is not reserved. */
  lemma AuditFailureIsExact(db: Db, n: nat, now: int)
    requires Inv(db) && n < |db.queue| && db.queue[n].state == Queued && db.queue[n].key.kind == JobOp
    ensures var k := db.queue[n].key;
            RecordIsTerminal(Next(db, TFailJob(k.id, now)), k) <==> !AnyIn(db.queue, RESERVED)
  {
    var k := db.queue[n].key;
    assert k == JobKey(k.id) && RowFits(db, db.queue[n]);
    MatchesAt(db.queue, n, {Queued});
    FailTrips(db, k.id, now);
  }

  /** Job `a` has the worker, in `state`; job `b` waits behind it, preparing. */
  predicate TwoJobs(db: Db, a: string, b: string, state: QueueState) {
    && a != b && |db.queue| == 2
    && db.queue[0].key == JobKey(a) && db.queue[0].state == state
    && db.queue[1].key == JobKey(b) && db.queue[1].state == Queued
    && a in db.jobs && b in db.jobs && db.jobs[b].status == Preparing
  }

  lemma SecondJob(db: Db, a: string, b: string)
    requires Inv(db) && |db.queue| == 1 && db.queue[0].key == JobKey(a) && db.queue[0].state == Admitting && a != b
    ensures var db' := Next(db, TCreateJob(b, 2)); TwoJobs(db', a, b, Admitting) && db'.jobs[a] == db.jobs[a]
  {
    assert RowRecorded(db, db.queue[0]);
    if b in db.jobs { var n := FindRow(db, JobKey(b)); }
  }

  lemma CancelsFirst(db: Db, a: string, b: string)
    requires TwoJobs(db, a, b, Admitting) && db.jobs[a].status == Preparing
    ensures var db' := Next(db, TCancelJob(a, 4)); TwoJobs(db', a, b, Admitting) && db'.jobs[a].status == Cancelled
  {
    UpdateRow(db.queue, 0, {Queued}, Move(Released));
  }

  lemma BeginsFirst(db: Db, a: string, b: string)
    requires TwoJobs(db, a, b, Admitting)
    ensures TwoJobs(Next(db, TBeginCleanup(JobKey(a))), a, b, Terminalizing)
  {
    MatchesAt(db.queue, 0, OPEN);
    UpdateRow(db.queue, 0, OPEN, Move(Terminalizing));
  }

  lemma ClaimsFirst(db: Db, a: string, b: string)
    requires TwoJobs(db, a, b, Terminalizing)
    ensures TwoJobs(Next(db, TClaim), a, b, Cleaning)
  {
    assert Oldest(db.queue, TEARDOWN) == 0;
    UpdateRow(db.queue, 0, TEARDOWN, Patch(Some(Cleaning), Keep, true));
  }

  lemma CompletesFirst(db: Db, a: string, b: string)
    requires TwoJobs(db, a, b, Cleaning)
    ensures TwoJobs(Next(db, TComplete(JobKey(a))), a, b, Released)
  {
    MatchesAt(db.queue, 0, TEARDOWN);
    UpdateRow(db.queue, 0, TEARDOWN, Move(Released));
  }

  /** Preparing `b` fails its audit while `a` has the worker. */
  lemma AuditFails(a: string, b: string) returns (acts: seq<Action>, s: Sys)
    requires a != b
    ensures Reached(acts, s) && s.disp.Idle? && TwoJobs(s.db, a, b, Admitting) && s.db.jobs[a].status == Preparing
    ensures FailJob(s.db, b, 3) == Err(Constraint) && Next(s.db, TFailJob(b, 3)) == s.db
  {
    var x := ReadWindowIsReachable(a);
    var acts1 := [Handle(TCreateJob(a, 0))] + [Acquire(1)];
    Extend(acts1, x, Read);
    var y := Apply(x, Read);
    ReachedInv(acts1 + [Read], y);
    SecondJob(y.db, a, b);
    var create := Handle(TCreateJob(b, 2));
    Extend(acts1 + [Read], y, create);
    acts, s := acts1 + [Read] + [create], Apply(y, create);
    ReachedInv(acts, s);
    MatchesAt(s.db.queue, 1, {Queued});
    FailTrips(s.db, b, 3);
  }

  /** Job `a` is cancelled, torn down and released. */
  lemma ReleaseFirst(acts: seq<Action>, s: Sys, a: string, b: string) returns (more: seq<Action>, s': Sys)
    requires Reached(acts, s) && s.disp.Idle? && TwoJobs(s.db, a, b, Admitting) && s.db.jobs[a].status == Preparing
    ensures Reached(more, s') && acts <= more && TwoJobs(s'.db, a, b, Released)
    ensures TBeginCleanup(JobKey(b)) in s.intents ==> TBeginCleanup(JobKey(b)) in s'.intents
  {
    CancelsFirst(s.db, a, b);
    Extend(acts, s, Handle(TCancelJob(a, 4)));
    var acts2, s2 := RequestFirst(acts + [Handle(TCancelJob(a, 4))], Apply(s, Handle(TCancelJob(a, 4))), a, b);
    more, s' := CleanFirst(acts2, s2, a, b);
  }

  lemma RequestFirst(acts: seq<Action>, s: Sys, a: string, b: string) returns (more: seq<Action>, s': Sys)
    requires Reached(acts, s) && s.disp.Idle? && TwoJobs(s.db, a, b, Admitting) && s.db.jobs[a].status == Cancelled
    ensures Reached(more, s') && acts <= more && TwoJobs(s'.db, a, b, Terminalizing)
    ensures TBeginCleanup(JobKey(b)) in s.intents ==> TBeginCleanup(JobKey(b)) in s'.intents
  {
    var begin := TBeginCleanup(JobKey(a));
    Extend(acts, s, Decide(begin));
    var s1 := Apply(s, Decide(begin));
    BeginsFirst(s1.db, a, b);
    Extend(acts + [Decide(begin)], s1, Handle(begin));
    more, s' := acts + [Decide(begin)] + [Handle(begin)], Apply(s1, Handle(begin));
  }

  lemma CleanFirst(acts: seq<Action>, s: Sys, a: string, b: string) returns (more: seq<Action>, s': Sys)
    requires Reached(acts, s) && TwoJobs(s.db, a, b, Terminalizing)
    ensures Reached(more, s') && acts <= more && TwoJobs(s'.db, a, b, Released)
    ensures TBeginCleanup(JobKey(b)) in s.intents ==> TBeginCleanup(JobKey(b)) in s'.intents
  {
    ClaimsFirst(s.db, a, b);
    CleanerStep(acts, s, TClaim);
    var s1 := Apply(s, Handle(TClaim));
    CompletesFirst(s1.db, a, b);
    CleanerStep(acts + [Handle(TClaim)], s1, TComplete(JobKey(a)));
    more, s' := acts + [Handle(TClaim)] + [Handle(TComplete(JobKey(a)))], Apply(s1, Handle(TComplete(JobKey(a))));
  }

  lemma CleanerStep(acts: seq<Action>, s: Sys, t: Txn)
    requires Reached(acts, s) && (t.TClaim? || t.TComplete?)
    ensures Enabled(s, Handle(t)) && Reached(acts + [Handle(t)], Apply(s, Handle(t)))
    ensures Apply(s, Handle(t)).db == Next(s.db, t) && Apply(s, Handle(t)).intents == s.intents - {t}
  {
    Extend(acts, s, Handle(t));
  }

  /** The whole of it: the failure of `b` is aborted, the handler requests the
      cleanup of `b` all the same, and once `a` has left the worker that request
      tears down a job that is still preparing. */
  lemma AuditFailureRun(a: string, b: string) returns (before: seq<Action>, s0: Sys, acts: seq<Action>, s: Sys)
    requires a != b
    ensures Reached(before, s0) && FailJob(s0.db, b, 3) == Err(Constraint)
    ensures Reached(acts, s) && before + [Handle(TFailJob(b, 3))] + [Decide(TBeginCleanup(JobKey(b)))] <= acts
    ensures Enabled(s, Handle(TBeginCleanup(JobKey(b))))
    ensures var db := Apply(s, Handle(TBeginCleanup(JobKey(b)))).db;
            && b in db.jobs && db.jobs[b].status == Preparing
            && At(db, JobKey(b)) == Some(Terminalizing) && !Inv(db)
  {
    var begin := TBeginCleanup(JobKey(b));
    before, s0 := AuditFails(a, b);
    Extend(before, s0, Handle(TFailJob(b, 3)));
    var s1 := Apply(s0, Handle(TFailJob(b, 3)));
    Extend(before + [Handle(TFailJob(b, 3))], s1, Decide(begin));
    acts, s := ReleaseFirst(before + [Handle(TFailJob(b, 3))] + [Decide(begin)], Apply(s1, Decide(begin)), a, b);
    ReachedInv(acts, s);
    TearsSecond(s.db, a, b);
  }

  lemma TearsSecond(db: Db, a: string, b: string)
    requires Inv(db) && TwoJobs(db, a, b, Released)
    ensures var db' := Next(db, TBeginCleanup(JobKey(b)));
            b in db'.jobs && db'.jobs[b].status == Preparing && At(db', JobKey(b)) == Some(Terminalizing) && !Inv(db')
  {
    TornDown(db, 1);
  }
}
