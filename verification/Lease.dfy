/** The lease invariant of the store and what every transaction keeps of it. */
module Lease {
  import opened Wrappers
  import opened Control
  import opened Transactions

  datatype Txn =
    | TCreateJob(id: string, now: int)
    | TCreateBuild(id: string, now: int)
    | TQueueJob(id: string, digest: string)
    | TSync(id: string, remote: Remote)
    | TCancelJob(id: string, now: int)
    | TFailJob(id: string, now: int)
    | TAcquire(now: int)
    | TRequeue(k: Key)
    | TActivate(k: Key)
    | TBeginCleanup(k: Key)
    | TClaim
    | TComplete(k: Key)
    | TEmergency(now: int)
    | TFinishBuild(id: string, status: BuildStatus, exitCode: int, now: int)
    | TRenew(k: Key, now: int)
    | TSaveBaseline(k: Key, resources: set<Resource>)

  function Run(db: Db, t: Txn): Result {
    match t
    case TCreateJob(id, now) => CreatePreparedJob(db, id, now)
    case TCreateBuild(id, now) => CreateBuild(db, id, now)
    case TQueueJob(id, digest) => QueueJob(db, id, digest)
    case TSync(id, remote) => SyncJob(db, id, remote)
    case TCancelJob(id, now) => RequestJobCancellation(db, id, now)
    case TFailJob(id, now) => FailJob(db, id, now)
    case TAcquire(now) => AcquireNextOperation(db, now)
    case TRequeue(k) => RequeueAdmittingOperation(db, k)
    case TActivate(k) => ActivateOperation(db, k)
    case TBeginCleanup(k) => BeginOperationCleanup(db, k)
    case TClaim => ClaimOperationCleanup(db)
    case TComplete(k) => CompleteOperationCleanup(db, k)
    case TEmergency(now) => EmergencyStopActiveOperation(db, now)
    case TFinishBuild(id, status, exitCode, now) => FinishBuild(db, id, status, exitCode, now)
    case TRenew(k, now) => RenewOperationLease(db, k, now)
    case TSaveBaseline(k, resources) => SaveResourceBaseline(db, k, resources)
  }

  function Next(db: Db, t: Txn): Db { After(db, Run(db, t)) }

  // ---------------------------------------------------------------- invariant

  ghost predicate UniqueKeys(q: seq<QueueRow>) {
    forall i, j :: 0 <= i < j < |q| ==> q[i].key != q[j].key
  }

  /** Nothing older than an executing operation is still waiting or held. */
  ghost predicate Fifo(q: seq<QueueRow>) {
    forall i, j :: 0 <= j < i < |q| && q[i].state in EXECUTING ==> q[j].state == Released
  }

  /** A job's status against the state of its queue row. */
  predicate JobCoupled(job: Job, state: QueueState) {
    match job.status
    case Preparing => state in {Queued, Admitting} && job.digest.None?
    case JobQueued => state in OPEN && job.digest.Some?
    case Running => state == Active && job.digest.Some?
    case _ => state in CLOSED || (job.status == Cancelled && state == Admitting && job.digest.None?)
  }

  predicate BuildCoupled(build: Build, state: QueueState) {
    && (build.status == BuildQueued <==> state in {Queued, Admitting})
    && (build.status == BuildRunning <==> state == Active)
    && (build.status.Terminal() <==> state in CLOSED)
  }

  /** What every run keeps of a row's record, whatever the callers do. */
  ghost predicate RowRecorded(db: Db, row: QueueRow) {
    match row.key.kind
    case JobOp =>
      && row.key.id in db.jobs
      && (db.jobs[row.key.id].status == Preparing ==> row.leasedAt.Some? && db.jobs[row.key.id].digest.None?)
    case BuildOp =>
      && row.key.id in db.builds
      && BuildCoupled(db.builds[row.key.id], row.state)
  }

  predicate RowFits(db: Db, row: QueueRow) {
    row.key.kind == JobOp ==> row.key.id in db.jobs && JobCoupled(db.jobs[row.key.id], row.state)
  }

  ghost predicate RowCoupled(db: Db, row: QueueRow) {
    RowRecorded(db, row) && RowFits(db, row)
  }

  ghost predicate Recorded(db: Db) {
    && (forall i :: 0 <= i < |db.queue| ==> RowRecorded(db, db.queue[i]))
    && (forall id :: id in db.jobs ==> HasRow(db.queue, JobKey(id)))
    && (forall id :: id in db.builds ==> HasRow(db.queue, BuildKey(id)))
  }

  /** The part of the invariant that needs no care from callers of job transactions. */
  ghost predicate Base(db: Db) {
    UniqueKeys(db.queue) && OneReserved(db.queue) && Fifo(db.queue) && Recorded(db)
  }

  /** The status of every job fits the state of its row. */
  ghost predicate JobsFit(db: Db) {
    forall i :: 0 <= i < |db.queue| ==> RowFits(db, db.queue[i])
  }

  ghost predicate Inv(db: Db) {
    Base(db) && JobsFit(db)
  }

  // ------------------------------------------------- what the callers establish

  predicate Committed(db: Db, id: string) {
    id in db.jobs && db.jobs[id].digest.Some?
  }

  predicate RecordIsTerminal(db: Db, k: Key) {
    match k.kind
    case JobOp => k.id in db.jobs && db.jobs[k.id].status.Terminal()
    case BuildOp => k.id in db.builds && db.builds[k.id].status.Terminal()
  }

  /** When `SyncJob` may be called: it does not look at the queue row itself. */
  predicate SyncGuard(db: Db, id: string, remote: Remote) {
    id in db.jobs && !db.jobs[id].status.Terminal() ==>
      match remote.status
      case Preparing => !Committed(db, id)
      case JobQueued => Committed(db, id)
      case Running => Matches(db.queue, JobKey(id), {Active})
      case _ => Matches(db.queue, JobKey(id), EXECUTING)
  }

  /** Moving an admitted job on, or back, needs its committed root digest. */
  predicate AdmittedGuard(db: Db, k: Key) {
    k.kind == JobOp && Matches(db.queue, k, {Admitting}) ==> Committed(db, k.id)
  }

  /** The unique index aborts an update that would reserve a second row. */
  predicate IndexAborts(db: Db, k: Key) {
    Matches(db.queue, k, {Queued}) && AnyIn(db.queue, RESERVED)
  }

  predicate CleanupGuard(db: Db, k: Key) {
    Matches(db.queue, k, OPEN) && !IndexAborts(db, k) ==> RecordIsTerminal(db, k)
  }

  /** What the callers owe the store. `GuardIsExact` shows it is no more than needed. */
  predicate Guard(db: Db, t: Txn) {
    match t
    case TSync(id, remote) => SyncGuard(db, id, remote)
    case TRequeue(k) => AdmittedGuard(db, k)
    case TActivate(k) => AdmittedGuard(db, k)
    case TBeginCleanup(k) => CleanupGuard(db, k)
    case _ => true
  }

  /** What the callers owe even `Base`: a record never returns to preparing, a
      preparing job is never requeued, an unfinished build never torn down. */
  predicate BaseGuard(db: Db, t: Txn) {
    match t
    case TSync(id, remote) =>
      id in db.jobs && !db.jobs[id].status.Terminal() && remote.status == Preparing ==> db.jobs[id].status == Preparing
    case TRequeue(k) => k.kind == JobOp && k.id in db.jobs && Matches(db.queue, k, {Admitting}) ==> db.jobs[k.id].status != Preparing
    case TBeginCleanup(k) => k.kind == BuildOp ==> CleanupGuard(db, k)
    case _ => true
  }

  // ------------------------------------------------ what a transaction may do

  predicate Closes(t: Txn) {
    t.TSync? || t.TFailJob? || t.TBeginCleanup? || t.TEmergency? || t.TFinishBuild?
  }

  /** The edges of the queue state graph, with the only transactions that take
      the admission edge, the back edges and the activation edge. */
  predicate Edge(t: Txn, k: Key, s: QueueState, s': QueueState) {
    || s == s'
    || (s == Queued && s' == Admitting && t.TAcquire?)
    || (s == Admitting && s' == Queued && (t == TRequeue(k) || (t.TQueueJob? && k == JobKey(t.id))))
    || (s == Admitting && s' == Active && t == TActivate(k))
    || (s in OPEN && s' == Terminalizing && Closes(t))
    || (s == Queued && s' == Released && (t.TCancelJob? || t.TFinishBuild?))
    || (s == Terminalizing && s' == Cleaning && t.TClaim?)
    || (s in TEARDOWN && s' == Released && t == TComplete(k))
  }

  /** Who writes the lease time of the row of `k`, and what. */
  predicate LeaseMove(t: Txn, k: Key, lease: Option<int>, lease': Option<int>) {
    match t
    case TAcquire(now) => lease' == Some(now)
    case TRenew(k', now) => k' == k && lease' == Some(now)
    case TRequeue(k') => k' == k && lease'.None?
    case TQueueJob(id, digest) => k == JobKey(id) && lease'.None?
    case _ => lease' == lease
  }

  /** The operation a transaction names; three of them pick it themselves. */
  predicate Addresses(t: Txn, k: Key) {
    match t
    case TQueueJob(id, _) => k == JobKey(id)
    case TSync(id, _) => k == JobKey(id)
    case TCancelJob(id, _) => k == JobKey(id)
    case TFailJob(id, _) => k == JobKey(id)
    case TFinishBuild(id, _, _, _) => k == BuildKey(id)
    case TRequeue(k') => k == k'
    case TActivate(k') => k == k'
    case TBeginCleanup(k') => k == k'
    case TComplete(k') => k == k'
    case TRenew(k', _) => k == k'
    case TAcquire(_) => true
    case TClaim => true
    case TEmergency(_) => true
    case _ => false
  }

  predicate WritesJobs(t: Txn) {
    t.TQueueJob? || t.TSync? || t.TCancelJob? || t.TFailJob? || t.TEmergency?
  }

  predicate JobMove(t: Txn, job: Job, job': Job) {
    && (job' != job ==> WritesJobs(t))
    && (job.status.Terminal() ==> job' == job)
    && (job.digest.Some? ==> job'.digest == job.digest)
    && (job'.status == Preparing ==> job.status == Preparing && !t.TQueueJob?)
  }

  predicate BuildMove(build: Build, build': Build) {
    build.status.Terminal() ==> build' == build
  }

  /** `db'` differs from `db` in row `n` and in the record that row belongs to. */
  ghost predicate OneOperation(db: Db, db': Db, n: nat) {
    && n < |db.queue| == |db'.queue|
    && db'.queue == db.queue[n := db'.queue[n]]
    && db'.queue[n].key == db.queue[n].key
    && db'.queue[n].acceptedAt == db.queue[n].acceptedAt
    && db'.jobs.Keys == db.jobs.Keys
    && db'.builds.Keys == db.builds.Keys
    && db'.baselines == db.baselines
    && (forall id :: id in db.jobs && JobKey(id) != db.queue[n].key ==> db'.jobs[id] == db.jobs[id])
    && (forall id :: id in db.builds && BuildKey(id) != db.queue[n].key ==> db'.builds[id] == db.builds[id])
  }

  predicate RowMove(t: Txn, row: QueueRow, row': QueueRow) {
    && Addresses(t, row.key)
    && Edge(t, row.key, row.state, row'.state)
    && LeaseMove(t, row.key, row.leasedAt, row'.leasedAt)
  }

  predicate RecordMove(t: Txn, db: Db, db': Db, k: Key) {
    match k.kind
    case JobOp => k.id in db.jobs && k.id in db'.jobs && JobMove(t, db.jobs[k.id], db'.jobs[k.id])
    case BuildOp => k.id in db.builds && k.id in db'.builds && BuildMove(db.builds[k.id], db'.builds[k.id])
  }

  /** Row `n` takes one edge, and its record moves on consistently. */
  ghost predicate Touched(db: Db, t: Txn, db': Db, n: nat) {
    && OneOperation(db, db', n)
    && RowMove(t, db.queue[n], db'.queue[n])
    && RecordMove(t, db, db', db.queue[n].key)
  }

  /** A fresh operation enters at the tail of the queue, as queued. */
  ghost predicate Appended(db: Db, db': Db) {
    && |db'.queue| == |db.queue| + 1
    && var row := db'.queue[|db.queue|];
       && db'.queue == db.queue + [row]
       && row.state == Queued && !HasRow(db.queue, row.key)
       && db'.baselines == db.baselines
       && (row.key.kind == JobOp ==> db'.builds == db.builds && db'.jobs.Keys == db.jobs.Keys + {row.key.id})
       && (row.key.kind == BuildOp ==> db'.jobs == db.jobs && db'.builds.Keys == db.builds.Keys + {row.key.id})
       && (forall id :: id in db.jobs ==> id in db'.jobs && db'.jobs[id] == db.jobs[id])
       && (forall id :: id in db.builds ==> id in db'.builds && db'.builds[id] == db.builds[id])
  }

  ghost predicate SavedBaseline(db: Db, t: Txn, db': Db) {
    && t.TSaveBaseline?
    && t.k !in db.baselines
    && db' == db.(baselines := db.baselines[t.k := t.resources])
  }

  /** The four things a transaction can do: nothing, save a baseline, append an
      operation, or move a single operation along an edge. */
  ghost predicate Shape(db: Db, t: Txn, db': Db) {
    || db' == db
    || SavedBaseline(db, t, db')
    || ((t.TCreateJob? || t.TCreateBuild?) && Appended(db, db'))
    || (exists n: nat :: Touched(db, t, db', n))
  }

  // ----------------------------------------------------------- preservation

  /** What is proved of every transaction. */
  ghost predicate Kept(db: Db, t: Txn) {
    && Base(Next(db, t)) && Shape(db, t, Next(db, t))
    && (JobsFit(db) && Guard(db, t) ==> JobsFit(Next(db, t)))
  }

  /** With unique keys, an update touches the selected row and nothing else. */
  lemma UpdateOne(q: seq<QueueRow>, n: nat, from: set<QueueState>, p: Patch)
    requires UniqueKeys(q) && n < |q| && q[n].state in from
    ensures UpdateRows(q, q[n].key, from, p) == q[n := PatchRow(q[n], p)]
  {
  }

  lemma UpdateNone(q: seq<QueueRow>, k: Key, from: set<QueueState>, p: Patch)
    requires !Matches(q, k, from)
    ensures UpdateRows(q, k, from, p) == q
  {
  }

  lemma OneOperationRecorded(db: Db, db': Db, n: nat)
    requires UniqueKeys(db.queue) && Recorded(db) && OneOperation(db, db', n)
    requires RowRecorded(db', db'.queue[n])
    ensures Recorded(db')
  {
    forall i | 0 <= i < |db'.queue| ensures RowRecorded(db', db'.queue[i]) {
      if i != n {
        assert db'.queue[i] == db.queue[i] && RowRecorded(db, db.queue[i]);
        assert db.queue[i].key != db.queue[n].key;
        assert db.queue[i].key == Key(db.queue[i].key.kind, db.queue[i].key.id);
      }
    }
    forall key | HasRow(db.queue, key) ensures HasRow(db'.queue, key) {
      var i :| 0 <= i < |db.queue| && db.queue[i].key == key;
      assert db'.queue[i].key == key;
    }
  }

  lemma OneOperationFits(db: Db, db': Db, n: nat)
    requires UniqueKeys(db.queue) && JobsFit(db) && OneOperation(db, db', n)
    requires RowFits(db', db'.queue[n])
    ensures JobsFit(db')
  {
    forall i | 0 <= i < |db'.queue| ensures RowFits(db', db'.queue[i]) {
      if i != n {
        assert db'.queue[i] == db.queue[i] && RowFits(db, db.queue[i]);
        assert db.queue[i].key != db.queue[n].key;
        assert db.queue[i].key == Key(db.queue[i].key.kind, db.queue[i].key.id);
      }
    }
  }

  lemma MoveOrder(q: seq<QueueRow>, q': seq<QueueRow>, t: Txn, n: nat)
    requires UniqueKeys(q) && Fifo(q) && n < |q| == |q'|
    requires q' == q[n := q'[n]] && q'[n].key == q[n].key && RowMove(t, q[n], q'[n])
    requires t.TAcquire? ==> forall j :: 0 <= j < n ==> q[j].state == Released
    ensures UniqueKeys(q') && Fifo(q')
  {
  }

  /** Row `n` and its record move, and fit each other after a guarded move. */
  ghost predicate Steps(db: Db, t: Txn, db': Db, n: nat) {
    && Touched(db, t, db', n)
    && RowRecorded(db', db'.queue[n]) && OneReserved(db'.queue)
    && (RowFits(db, db.queue[n]) && Guard(db, t) ==> RowFits(db', db'.queue[n]))
  }

  /** The single shape behind every transaction that updates an operation. */
  lemma TouchedKeeps(db: Db, t: Txn, db': Db, n: nat)
    requires Base(db) && Steps(db, t, db', n)
    requires t.TAcquire? ==> forall j :: 0 <= j < n ==> db.queue[j].state == Released
    ensures Base(db') && Shape(db, t, db')
    ensures JobsFit(db) && Guard(db, t) ==> JobsFit(db')
  {
    assert Recorded(db') by { OneOperationRecorded(db, db', n); }
    assert UniqueKeys(db'.queue) && Fifo(db'.queue) by { MoveOrder(db.queue, db'.queue, t, n); }
    if JobsFit(db) && Guard(db, t) { OneOperationFits(db, db', n); }
  }

  lemma Find(db: Db, k: Key, from: set<QueueState>) returns (n: nat)
    requires Matches(db.queue, k, from)
    ensures n < |db.queue| && Selects(db.queue[n], k, from)
  {
    n :| 0 <= n < |db.queue| && Selects(db.queue[n], k, from);
  }

  lemma FindRow(db: Db, k: Key) returns (n: nat)
    requires HasRow(db.queue, k)
    ensures n < |db.queue| && db.queue[n].key == k
  {
    n :| 0 <= n < |db.queue| && db.queue[n].key == k;
  }

  /** An update of row `n` alone, or of no row. */
  lemma UpdateRow(q: seq<QueueRow>, n: nat, from: set<QueueState>, p: Patch)
    requires UniqueKeys(q) && n < |q|
    ensures UpdateRows(q, q[n].key, from, p) == if q[n].state in from then q[n := PatchRow(q[n], p)] else q
  {
  }

  /** Appending a fresh queued row. */
  lemma AppendKeeps(db: Db, db': Db)
    requires Base(db) && Appended(db, db') && RowCoupled(db', db'.queue[|db.queue|])
    ensures Base(db') && (JobsFit(db) ==> JobsFit(db'))
  {
    var n := |db.queue|;
    var row := db'.queue[n];
    forall i | 0 <= i < n ensures db'.queue[i] == db.queue[i] && RowRecorded(db', db'.queue[i]) {
      assert RowRecorded(db, db.queue[i]);
      assert db.queue[i].key == Key(db.queue[i].key.kind, db.queue[i].key.id);
    }
    forall key | HasRow(db.queue, key) || key == row.key ensures HasRow(db'.queue, key) {
      if key != row.key {
        var i :| 0 <= i < n && db.queue[i].key == key;
        assert db'.queue[i].key == key;
      }
    }
    assert UniqueKeys(db'.queue) && OneReserved(db'.queue) && Fifo(db'.queue) by { AppendOrder(db.queue, row); }
    if JobsFit(db) {
      forall i | 0 <= i < n ensures RowFits(db', db'.queue[i]) { assert RowFits(db, db.queue[i]) && RowRecorded(db, db.queue[i]); }
    }
  }

  lemma AppendOrder(q: seq<QueueRow>, row: QueueRow)
    requires UniqueKeys(q) && OneReserved(q) && Fifo(q) && row.state == Queued && !HasRow(q, row.key)
    ensures UniqueKeys(q + [row]) && OneReserved(q + [row]) && Fifo(q + [row])
  {
  }

  lemma CreateKeeps(db: Db, t: Txn)
    requires Base(db) && (t.TCreateJob? || t.TCreateBuild?)
    ensures Kept(db, t)
  {
    var db' := Next(db, t);
    if db' != db {
      assert Appended(db, db') && RowCoupled(db', db'.queue[|db.queue|]);
      AppendKeeps(db, db');
    }
  }

  lemma QueueJobKeeps(db: Db, id: string, digest: string)
    requires Base(db)
    ensures Kept(db, TQueueJob(id, digest))
  {
    var db' := Next(db, TQueueJob(id, digest));
    if db' != db {
      var n := Find(db, JobKey(id), {Queued, Admitting});
      UpdateRow(db.queue, n, {Queued, Admitting}, Patch(Some(Queued), Clear, false));
      TouchedKeeps(db, TQueueJob(id, digest), db', n);
    }
  }

  lemma SyncKeeps(db: Db, id: string, remote: Remote)
    requires Base(db) && BaseGuard(db, TSync(id, remote))
    ensures Kept(db, TSync(id, remote))
  {
    var db' := Next(db, TSync(id, remote));
    if id in db.jobs {
      var n := FindRow(db, JobKey(id));
      if db' != db {
        SyncTouches(db, id, remote, n);
        TouchedKeeps(db, TSync(id, remote), db', n);
      }
    } else {
      forall i | 0 <= i < |db.queue| ensures !Selects(db.queue[i], JobKey(id), EXECUTING) {
        assert RowRecorded(db, db.queue[i]);
      }
      UpdateNone(db.queue, JobKey(id), EXECUTING, Move(Terminalizing));
    }
  }

  /** The guard, read off the row itself. */
  lemma MatchesAt(q: seq<QueueRow>, n: nat, from: set<QueueState>)
    requires UniqueKeys(q) && n < |q|
    ensures Matches(q, q[n].key, from) <==> q[n].state in from
  {
  }

  lemma SyncTouches(db: Db, id: string, remote: Remote, n: nat)
    requires UniqueKeys(db.queue) && OneReserved(db.queue) && n < |db.queue| && db.queue[n].key == JobKey(id)
    requires RowRecorded(db, db.queue[n]) && BaseGuard(db, TSync(id, remote)) && SyncJob(db, id, remote).Ok?
    ensures Steps(db, TSync(id, remote), SyncJob(db, id, remote).db, n)
  {
    UpdateRow(db.queue, n, EXECUTING, Move(Terminalizing));
    MatchesAt(db.queue, n, EXECUTING);
    MatchesAt(db.queue, n, {Active});
  }

  lemma CancelTouches(db: Db, id: string, now: int, n: nat)
    requires UniqueKeys(db.queue) && OneReserved(db.queue) && n < |db.queue| && db.queue[n].key == JobKey(id)
    requires RowRecorded(db, db.queue[n]) && RequestJobCancellation(db, id, now).Ok?
    ensures Steps(db, TCancelJob(id, now), RequestJobCancellation(db, id, now).db, n)
  {
    UpdateRow(db.queue, n, {Queued}, Move(Released));
    MatchesAt(db.queue, n, EXECUTING);
  }

  lemma CancelKeeps(db: Db, id: string, now: int)
    requires Base(db)
    ensures Kept(db, TCancelJob(id, now))
  {
    var db' := Next(db, TCancelJob(id, now));
    if db' != db {
      var n := FindRow(db, JobKey(id));
      CancelTouches(db, id, now, n);
      TouchedKeeps(db, TCancelJob(id, now), db', n);
    }
  }

  lemma FailTouches(db: Db, id: string, now: int, n: nat)
    requires UniqueKeys(db.queue) && OneReserved(db.queue) && n < |db.queue| && db.queue[n].key == JobKey(id)
    requires RowRecorded(db, db.queue[n]) && FailJob(db, id, now).Ok?
    ensures Steps(db, TFailJob(id, now), FailJob(db, id, now).db, n)
  {
    UpdateRow(db.queue, n, OPEN, Move(Terminalizing));
  }

  lemma FailKeeps(db: Db, id: string, now: int)
    requires Base(db)
    ensures Kept(db, TFailJob(id, now))
  {
    var db' := Next(db, TFailJob(id, now));
    if db' != db {
      var n := FindRow(db, JobKey(id));
      FailTouches(db, id, now, n);
      TouchedKeeps(db, TFailJob(id, now), db', n);
    }
  }

  lemma AcquireTouches(db: Db, now: int, n: nat)
    requires UniqueKeys(db.queue) && OneReserved(db.queue) && n == NextOperation(db) < |db.queue|
    requires RowRecorded(db, db.queue[n]) && AcquireNextOperation(db, now).Ok?
    ensures Steps(db, TAcquire(now), AcquireNextOperation(db, now).db, n)
  {
    UpdateRow(db.queue, n, {Queued}, Patch(Some(Admitting), Put(now), false));
  }

  lemma AcquireKeeps(db: Db, now: int)
    requires Base(db)
    ensures Kept(db, TAcquire(now))
  {
    var db' := Next(db, TAcquire(now));
    var n := NextOperation(db);
    if n < |db.queue| && db' != db {
      AcquireTouches(db, now, n);
      TouchedKeeps(db, TAcquire(now), db', n);
    }
  }

  lemma RequeueTouches(db: Db, k: Key, n: nat)
    requires UniqueKeys(db.queue) && OneReserved(db.queue) && n < |db.queue| && Selects(db.queue[n], k, {Admitting})
    requires RowRecorded(db, db.queue[n]) && BaseGuard(db, TRequeue(k)) && RequeueAdmittingOperation(db, k).Ok?
    ensures Steps(db, TRequeue(k), RequeueAdmittingOperation(db, k).db, n)
  {
    UpdateRow(db.queue, n, {Admitting}, Patch(Some(Queued), Clear, false));
    MatchesAt(db.queue, n, {Admitting});
  }

  lemma RequeueKeeps(db: Db, k: Key)
    requires Base(db) && BaseGuard(db, TRequeue(k))
    ensures Kept(db, TRequeue(k))
  {
    var db' := Next(db, TRequeue(k));
    if db' != db {
      var n := Find(db, k, {Admitting});
      RequeueTouches(db, k, n);
      TouchedKeeps(db, TRequeue(k), db', n);
    }
  }

  lemma ActivateTouches(db: Db, k: Key, n: nat)
    requires UniqueKeys(db.queue) && OneReserved(db.queue) && n < |db.queue| && Selects(db.queue[n], k, {Admitting})
    requires RowRecorded(db, db.queue[n]) && ActivateOperation(db, k).Ok?
    ensures var db' := ActivateOperation(db, k).db;
            Steps(db, TActivate(k), db', n)
  {
    UpdateRow(db.queue, n, {Admitting}, Move(Active));
    MatchesAt(db.queue, n, {Admitting});
  }

  lemma ActivateKeeps(db: Db, k: Key)
    requires Base(db) && BaseGuard(db, TActivate(k))
    ensures Kept(db, TActivate(k))
  {
    var db' := Next(db, TActivate(k));
    if db' != db {
      var n := Find(db, k, {Admitting});
      ActivateTouches(db, k, n);
      TouchedKeeps(db, TActivate(k), db', n);
    }
  }

  lemma BeginTouches(db: Db, k: Key, n: nat)
    requires UniqueKeys(db.queue) && OneReserved(db.queue) && n < |db.queue| && Selects(db.queue[n], k, OPEN)
    requires RowRecorded(db, db.queue[n]) && BaseGuard(db, TBeginCleanup(k)) && BeginOperationCleanup(db, k).Ok?
    ensures var db' := BeginOperationCleanup(db, k).db;
            Steps(db, TBeginCleanup(k), db', n)
  {
    UpdateRow(db.queue, n, OPEN, Move(Terminalizing));
    MatchesAt(db.queue, n, OPEN);
    MatchesAt(db.queue, n, {Queued});
  }

  lemma BeginKeeps(db: Db, k: Key)
    requires Base(db) && BaseGuard(db, TBeginCleanup(k))
    ensures Kept(db, TBeginCleanup(k))
  {
    var db' := Next(db, TBeginCleanup(k));
    if db' != db {
      var n := Find(db, k, OPEN);
      BeginTouches(db, k, n);
      TouchedKeeps(db, TBeginCleanup(k), db', n);
    }
  }

  lemma CompleteKeeps(db: Db, k: Key)
    requires Base(db) && BaseGuard(db, TComplete(k))
    ensures Kept(db, TComplete(k))
  {
    var db' := Next(db, TComplete(k));
    if db' != db {
      var n := Find(db, k, TEARDOWN);
      assert RowRecorded(db, db.queue[n]);
      UpdateRow(db.queue, n, TEARDOWN, Move(Released));
      TouchedKeeps(db, TComplete(k), db', n);
    }
  }

  lemma RenewKeeps(db: Db, k: Key, now: int)
    requires Base(db) && BaseGuard(db, TRenew(k, now))
    ensures Kept(db, TRenew(k, now))
  {
    var db' := Next(db, TRenew(k, now));
    if db' != db {
      var n := Find(db, k, OPEN);
      assert RowRecorded(db, db.queue[n]);
      UpdateRow(db.queue, n, OPEN, Patch(None, Put(now), false));
      TouchedKeeps(db, TRenew(k, now), db', n);
    }
  }

  lemma ClaimTouches(db: Db, n: nat)
    requires UniqueKeys(db.queue) && OneReserved(db.queue) && n == Oldest(db.queue, TEARDOWN) < |db.queue|
    requires RowRecorded(db, db.queue[n]) && ClaimOperationCleanup(db).Ok?
    ensures Steps(db, TClaim, ClaimOperationCleanup(db).db, n)
  {
    UpdateRow(db.queue, n, TEARDOWN, Patch(Some(Cleaning), Keep, true));
  }

  lemma ClaimKeeps(db: Db)
    requires Base(db)
    ensures Kept(db, TClaim)
  {
    var db' := Next(db, TClaim);
    var n := Oldest(db.queue, TEARDOWN);
    if n < |db.queue| && db' != db {
      ClaimTouches(db, n);
      TouchedKeeps(db, TClaim, db', n);
    }
  }

  /** What the emergency transaction writes when it commits a change. */
  lemma EmergencyEffect(db: Db, now: int, n: nat)
    requires UniqueKeys(db.queue) && n == Oldest(db.queue, EXECUTING) < |db.queue|
    ensures var r := EmergencyStopActiveOperation(db, now);
            r.Ok? ==>
              && r.db.queue == db.queue[n := db.queue[n].(state := Terminalizing)]
              && OneReserved(r.db.queue)
              && OneOperation(db, r.db, n)
              && (db.queue[n].key.kind == JobOp ==> db.queue[n].key.id in r.db.jobs && r.db.jobs[db.queue[n].key.id].status == Failed)
              && (db.queue[n].key.kind == BuildOp ==> db.queue[n].key.id in r.db.builds && r.db.builds[db.queue[n].key.id].status == BuildCancelled)
  {
    UpdateRow(db.queue, n, EVERY, Move(Terminalizing));
    assert db.queue[n].key == Key(db.queue[n].key.kind, db.queue[n].key.id);
  }

  lemma EmergencyTouches(db: Db, now: int, n: nat)
    requires UniqueKeys(db.queue) && n == Oldest(db.queue, EXECUTING) < |db.queue|
    requires RowRecorded(db, db.queue[n]) && EmergencyStopActiveOperation(db, now).Ok?
    ensures Steps(db, TEmergency(now), EmergencyStopActiveOperation(db, now).db, n)
  {
    EmergencyEffect(db, now, n);
  }

  lemma EmergencyKeeps(db: Db, now: int)
    requires Base(db)
    ensures Kept(db, TEmergency(now))
  {
    var r := EmergencyStopActiveOperation(db, now);
    var n := Oldest(db.queue, EXECUTING);
    if n < |db.queue| && r.Ok? {
      EmergencyTouches(db, now, n);
      TouchedKeeps(db, TEmergency(now), r.db, n);
    }
  }

  lemma FinishRow(q: seq<QueueRow>, n: nat)
    requires UniqueKeys(q) && n < |q|
    ensures var released := UpdateRows(q, q[n].key, {Queued}, Move(Released));
            UpdateRows(released, q[n].key, EXECUTING, Move(Terminalizing)) ==
              if q[n].state == Queued then q[n := q[n].(state := Released)]
              else if q[n].state in EXECUTING then q[n := q[n].(state := Terminalizing)]
              else q
  {
  }

  lemma FinishKeeps(db: Db, id: string, status: BuildStatus, exitCode: int, now: int)
    requires Base(db)
    ensures Kept(db, TFinishBuild(id, status, exitCode, now))
  {
    var db' := Next(db, TFinishBuild(id, status, exitCode, now));
    if db' != db {
      var n := FindRow(db, BuildKey(id));
      assert RowRecorded(db, db.queue[n]);
      FinishRow(db.queue, n);
      TouchedKeeps(db, TFinishBuild(id, status, exitCode, now), db', n);
    }
  }

  lemma JobTxnMoves(db: Db, t: Txn)
    requires Base(db) && BaseGuard(db, t)
    requires t.TCreateJob? || t.TCreateBuild? || t.TQueueJob? || t.TSync? || t.TCancelJob? || t.TFailJob?
    ensures Kept(db, t)
  {
    match t
    case TCreateJob(id, now) => CreateKeeps(db, t);
    case TCreateBuild(id, now) => CreateKeeps(db, t);
    case TQueueJob(id, digest) => QueueJobKeeps(db, id, digest);
    case TSync(id, remote) => SyncKeeps(db, id, remote);
    case TCancelJob(id, now) => CancelKeeps(db, id, now);
    case TFailJob(id, now) => FailKeeps(db, id, now);
  }

  /** Every transaction keeps the base and has one of the four shapes; a guarded
      one also keeps every job fitting its row. */
  lemma TxnMoves(db: Db, t: Txn)
    requires Base(db) && BaseGuard(db, t)
    ensures Kept(db, t)
  {
    match t
    case TAcquire(now) => AcquireKeeps(db, now);
    case TRequeue(k) => RequeueKeeps(db, k);
    case TActivate(k) => ActivateKeeps(db, k);
    case TBeginCleanup(k) => BeginKeeps(db, k);
    case TClaim => ClaimKeeps(db);
    case TComplete(k) => CompleteKeeps(db, k);
    case TEmergency(now) => EmergencyKeeps(db, now);
    case TFinishBuild(id, status, exitCode, now) => FinishKeeps(db, id, status, exitCode, now);
    case TRenew(k, now) => RenewKeeps(db, k, now);
    case TSaveBaseline(k, resources) => SaveKeeps(db, k, resources);
    case _ => JobTxnMoves(db, t);
  }

  lemma SaveKeeps(db: Db, k: Key, resources: set<Resource>)
    requires Base(db)
    ensures Kept(db, TSaveBaseline(k, resources))
  {
    var db' := Next(db, TSaveBaseline(k, resources));
    assert Recorded(db') by {
      forall i | 0 <= i < |db'.queue| ensures RowRecorded(db', db'.queue[i]) { assert RowRecorded(db, db.queue[i]); }
    }
    if JobsFit(db) {
      forall i | 0 <= i < |db'.queue| ensures RowFits(db', db'.queue[i]) { assert RowFits(db, db.queue[i]); }
    }
  }

  /** Callers who keep the lease invariant's guard keep the base's as well. */
  lemma GuardedIsBased(db: Db, t: Txn)
    requires Inv(db) && Guard(db, t)
    ensures BaseGuard(db, t)
  {
    if t.TRequeue? && t.k.kind == JobOp && Matches(db.queue, t.k, {Admitting}) {
      var n := Find(db, t.k, {Admitting});
      assert RowRecorded(db, db.queue[n]);
    } else if t.TSync? && t.id in db.jobs {
      var n := FindRow(db, JobKey(t.id));
      assert RowFits(db, db.queue[n]);
    }
  }

  lemma TxnKept(db: Db, t: Txn)
    requires Inv(db) && Guard(db, t)
    ensures Inv(Next(db, t)) && Shape(db, t, Next(db, t))
  {
    GuardedIsBased(db, t);
    TxnMoves(db, t);
  }
}
