/** Whole runs of the control plane: the dispatcher as a program counter, every
    other actor as transactions in flight, and crashes between any two steps. */
module Protocol {
  import opened Wrappers
  import opened Control
  import opened Transactions
  import opened Lease
  import opened History

  // ------------------------------------------------------------------- state

  /** Where `runOnce` stands. `Controller.Admit` serialises it, so there is one. */
  datatype Dispatch =
    | Idle
    | Admitted(k: Key)                                // a job acquired, its record not read yet
    | Chosen(k: Key)                                  // to be prepared
    | Captured(k: Key, inventory: set<Resource>)      // inventory taken, baseline not saved yet
    | Prepared(k: Key)                                // baseline saved
    | Started(k: Key)                                 // the scheduler's Create returned
    | Refused(k: Key)                                 // preparation or Create failed for good
    | Failing(k: Key)                                 // recorded as failed, cleanup to be requested

  /** `listed` holds the jobs the reconciler has listed as scheduled, `intents` the
      transactions that API handlers, the reconciler and the coordinator have
      decided on from an earlier read and not issued yet. `created` logs the calls
      of the scheduler's Create, `admitted` the sequence numbers in order of
      admission, `beats` the last heartbeat of an operation. */
  datatype Sys = Sys(
    db: Db, disp: Dispatch, listed: set<string>, intents: set<Txn>,
    created: seq<string>, admitted: seq<nat>, beats: map<Key, int>)

  const START: Sys := Sys(EMPTY, Idle, {}, {}, [], [], map[])

  datatype Outcome = Success | Failure | ContextEnded

  datatype Action =
    | List(id: string)
    | Decide(t: Txn)
    | Handle(t: Txn)
    | Acquire(now: int)
    | Read
    | Capture(inventory: set<Resource>)
    | Save
    | PrepareFails(permanent: bool)
    | Create(outcome: Outcome)
    | Activate
    | Fail(now: int)
    | Request
    | Abort
    | Crash

  // ------------------------------------------------------------------- steps

  /** `ScheduledJobs` lists job `id`: queued or running, with an executing row. */
  predicate Scheduled(db: Db, id: string) {
    id in db.jobs && db.jobs[id].status in {JobQueued, Running} && Matches(db.queue, JobKey(id), EXECUTING)
  }

  /** What an actor has read when it decides on a transaction for later. The
      reconciler reports only on jobs it has listed: on a missing service as lost,
      on an existing one once its row is past the admission. An API handler reports
      on a started job past the admission. Two callers request the cleanup of a job
      without looking at its record: the audit failure of `PrepareJob` and the
      sweep of stale preparations. */
  predicate Observed(s: Sys, t: Txn) {
    match t
    case TBeginCleanup(k) => RecordIsTerminal(s.db, k) || (k.kind == JobOp && k.id in s.db.jobs)
    case TActivate(k) => k.kind == JobOp && k.id in s.listed && k.id in s.created
    case TSync(id, remote) =>
      && remote.status != Preparing
      && (|| (id in s.listed && remote.status == Lost)
          || (id in s.listed && id in s.created && At(s.db, JobKey(id)) != Some(Admitting))
          || (PastPreparing(s.db, JobKey(id)) && PastAdmission(At(s.db, JobKey(id)))))
    case _ => false
  }

  /** A job that has left its preparation, or a build. */
  predicate PastPreparing(db: Db, k: Key) {
    k.kind == JobOp ==> k.id in db.jobs && db.jobs[k.id].status != Preparing
  }

  predicate PastAdmission(s: Option<QueueState>) {
    s.Some? && s.value in {Active, Terminalizing, Cleaning, Released}
  }

  /** The transactions actors other than the dispatcher issue without an earlier
      read. The capacity emergency holds the admission lock, so it finds the
      dispatcher idle. */
  predicate Unconditional(s: Sys, t: Txn) {
    || t.TCreateJob? || t.TCreateBuild? || t.TQueueJob? || t.TCancelJob? || t.TFailJob?
    || t.TClaim? || t.TComplete? || t.TFinishBuild? || t.TRenew?
    || (t.TEmergency? && s.disp.Idle?)
  }

  predicate Enabled(s: Sys, a: Action) {
    match a
    case List(id) => Scheduled(s.db, id)
    case Decide(t) => Observed(s, t)
    case Handle(t) => Unconditional(s, t) || t in s.intents
    case Acquire(now) => s.disp.Idle?
    case Read => s.disp.Admitted?
    case Capture(inventory) => s.disp.Chosen?
    case Save => s.disp.Captured?
    case PrepareFails(permanent) => s.disp.Chosen? || s.disp.Captured? || s.disp.Prepared?
    case Create(outcome) => s.disp.Prepared? && s.disp.k.kind == JobOp
    case Activate => s.disp.Started? || (s.disp.Prepared? && s.disp.k.kind == BuildOp)
    case Fail(now) => s.disp.Refused?
    case Request => s.disp.Failing?
    case Abort => true
    case Crash => true
  }

  /** The last heartbeat of each operation: the creation of a job, an acquisition
      or a renewal. A requeue forgets it. */
  function Beat(db: Db, beats: map<Key, int>, t: Txn): map<Key, int> {
    match t
    case TCreateJob(id, now) => if Run(db, t).Ok? then beats[JobKey(id) := now] else beats
    case TAcquire(now) =>
      var n := NextOperation(db);
      if n < |db.queue| then beats[db.queue[n].key := now] else beats
    case TRenew(k, now) => if Run(db, t).Ok? then beats[k := now] else beats
    case TRequeue(k) => if Run(db, t).Ok? then beats - {k} else beats
    case _ => beats
  }

  function Commit(s: Sys, t: Txn, disp: Dispatch): Sys {
    s.(db := Next(s.db, t), disp := disp, beats := Beat(s.db, s.beats, t))
  }

  function Apply(s: Sys, a: Action): Sys
    requires Enabled(s, a)
  {
    match a
    case List(id) => s.(listed := s.listed + {id})
    case Decide(t) => s.(intents := s.intents + {t})
    case Handle(t) => Commit(s, t, s.disp).(intents := s.intents - {t})
    case Acquire(now) =>
      var n := NextOperation(s.db);
      if n == |s.db.queue| then s
      else
        var k := s.db.queue[n].key;
        Commit(s, TAcquire(now), if k.kind == JobOp then Admitted(k) else Chosen(k)).(admitted := s.admitted + [n])
    case Read =>
      var id := s.disp.k.id;
      s.(disp := if id !in s.db.jobs || s.db.jobs[id].status == Preparing then Idle else Chosen(s.disp.k))
    case Capture(inventory) =>
      s.(disp := if s.disp.k in s.db.baselines then Prepared(s.disp.k) else Captured(s.disp.k, inventory))
    case Save => Commit(s, TSaveBaseline(s.disp.k, s.disp.inventory), Prepared(s.disp.k))
    case PrepareFails(permanent) =>
      if permanent && s.disp.k.kind == JobOp then s.(disp := Refused(s.disp.k))
      else Commit(s, TRequeue(s.disp.k), Idle)
    case Create(outcome) =>
      s.(created := s.created + [s.disp.k.id],
         disp := match outcome case Success => Started(s.disp.k) case Failure => Refused(s.disp.k) case ContextEnded => Idle)
    case Activate => Commit(s, TActivate(s.disp.k), Idle)
    case Fail(now) =>
      var t := TFailJob(s.disp.k.id, now);
      Commit(s, t, if Run(s.db, t).Ok? then Failing(s.disp.k) else Idle)
    case Request => Commit(s, TBeginCleanup(s.disp.k), Idle)
    case Abort => s.(disp := Idle)
    case Crash => s.(disp := Idle, listed := {}, intents := {})
  }

  /** Transactions that write the record of job `id`. */
  predicate WritesJob(t: Txn, id: string) {
    (t.TQueueJob? || t.TSync? || t.TCancelJob? || t.TFailJob?) && t.id == id
  }

  /** The dispatcher has acquired a job that is still preparing and has not read it yet. */
  predicate ReadsPreparing(s: Sys) {
    s.disp.Admitted? && s.disp.k.id in s.db.jobs && s.db.jobs[s.disp.k.id].status == Preparing
  }

  /** What at-most-once needs: between the acquisition of a job that is still
      preparing and the dispatcher's read of it, no start takes effect. */
  predicate Unrushed(s: Sys, a: Action) {
    a.Handle? && ReadsPreparing(s) ==>
      !(a.t.TQueueJob? && a.t.id == s.disp.k.id && Matches(s.db.queue, s.disp.k, {Queued, Admitting}))
  }

  /** What creation with the digest needs: in that window nobody cancels or fails
      the job. */
  predicate Uncut(s: Sys, a: Action) {
    a.Handle? && ReadsPreparing(s) ==> !((a.t.TCancelJob? || a.t.TFailJob?) && a.t.id == s.disp.k.id)
  }

  /** What the coupling of jobs with their rows needs: in that window no start and
      no cancellation, no lost verdict on a row that has left the lease since it was
      listed, and no cleanup request for an open row whose job is not finished. */
  predicate Guarded(s: Sys, a: Action) {
    a.Handle? ==>
      && (ReadsPreparing(s) ==> !((a.t.TQueueJob? || a.t.TCancelJob?) && a.t.id == s.disp.k.id))
      && (a.t.TSync? && a.t.remote.status == Lost ==> SyncGuard(s.db, a.t.id, a.t.remote))
      && (a.t.TBeginCleanup? ==> CleanupGuard(s.db, a.t.k))
  }

  /** All three. */
  predicate Calm(s: Sys, a: Action) {
    Unrushed(s, a) && Uncut(s, a) && Guarded(s, a)
  }

  /** A run: states, and the actions between them. */
  ghost predicate IsRun(ss: seq<Sys>, acts: seq<Action>) {
    && |ss| == |acts| + 1
    && ss[0] == START
    && (forall i :: 0 <= i < |acts| ==> Enabled(ss[i], acts[i]) && ss[i + 1] == Apply(ss[i], acts[i]))
  }

  /** A run whose every action is allowed by `ok` where it happens. */
  ghost predicate IsRunOf(ok: (Sys, Action) -> bool, ss: seq<Sys>, acts: seq<Action>) {
    IsRun(ss, acts) && forall i :: 0 <= i < |acts| ==> ok(ss[i], acts[i])
  }

  // ------------------------------------------------- what holds in every run

  predicate DispatchRuns(s: Sys) {
    match s.disp
    case Idle => true
    case Admitted(k) => k.kind == JobOp
    case Chosen(k) => PastPreparing(s.db, k)
    case Captured(k, inventory) => PastPreparing(s.db, k)
    case Prepared(k) => PastPreparing(s.db, k)
    case Started(k) => k.kind == JobOp && k.id in s.created
    case Refused(k) => k.kind == JobOp && PastPreparing(s.db, k)
    case Failing(k) => RecordIsTerminal(s.db, k)
  }

  ghost predicate CreatedRuns(s: Sys) {
    forall id :: id in s.created ==> PastPreparing(s.db, JobKey(id))
  }

  predicate IntentRuns(s: Sys, t: Txn) {
    match t
    case TBeginCleanup(k) => k.kind == BuildOp ==> RecordIsTerminal(s.db, k)
    case TActivate(k) => k.kind == JobOp && k.id in s.created
    case TSync(id, remote) => remote.status != Preparing && PastPreparing(s.db, JobKey(id))
    case _ => false
  }

  ghost predicate ListedRuns(s: Sys) {
    forall id :: id in s.listed ==> PastPreparing(s.db, JobKey(id))
  }

  ghost predicate IntentsRuns(s: Sys) {
    forall t :: t in s.intents ==> IntentRuns(s, t)
  }

  /** Everything older than an admission ever made is released. */
  ghost predicate AdmittedInv(s: Sys) {
    && (forall i, j :: 0 <= i < j < |s.admitted| ==> s.admitted[i] <= s.admitted[j])
    && (forall i :: 0 <= i < |s.admitted| ==> OlderReleased(s.db, s.admitted[i]))
  }

  ghost predicate OlderReleased(db: Db, n: nat) {
    n < |db.queue| && forall j :: 0 <= j < n ==> db.queue[j].state == Released
  }

  /** The lease of a preparing job, and of any build, is its last heartbeat. */
  ghost predicate HeartbeatInv(s: Sys) {
    forall i :: 0 <= i < |s.db.queue| ==> Beating(s.db, s.beats, s.db.queue[i])
  }

  /** Heartbeats are kept for operations of the queue. */
  ghost predicate BeatsKnown(s: Sys) {
    forall k :: k in s.beats ==> HasRow(s.db.queue, k)
  }

  function LastBeat(beats: map<Key, int>, k: Key): Option<int> {
    if k in beats then Some(beats[k]) else None
  }

  ghost predicate Beating(db: Db, beats: map<Key, int>, row: QueueRow) {
    match row.key.kind
    case JobOp =>
      row.key.id in db.jobs && db.jobs[row.key.id].status == Preparing ==>
        row.key in beats && row.leasedAt == Some(beats[row.key])
    case BuildOp => row.leasedAt == LastBeat(beats, row.key)
  }

  ghost predicate RunInv(s: Sys) {
    && Base(s.db)
    && DispatchRuns(s)
    && CreatedRuns(s)
    && ListedRuns(s)
    && IntentsRuns(s)
    && AdmittedInv(s)
    && HeartbeatInv(s)
    && BeatsKnown(s)
  }

  predicate Waiting(s: Option<QueueState>) { s.None? || s == Some(Queued) }

  predicate PreCreate(d: Dispatch) { d.Chosen? || d.Captured? || d.Prepared? }

  /** The dispatcher has acquired an operation and not launched it yet. */
  predicate Acquires(d: Dispatch) { d.Admitted? || PreCreate(d) }

  // ------------------------------------------- what at-most-once rests on besides

  ghost predicate CreatedOnce(s: Sys) {
    forall i, j :: 0 <= i < j < |s.created| ==> s.created[i] != s.created[j]
  }

  /** A created job never waits again. */
  ghost predicate CreatedOut(s: Sys) {
    forall id :: id in s.created ==> !Waiting(At(s.db, JobKey(id)))
  }

  /** An acquired job was not created before and does not wait. */
  ghost predicate AcquiredFresh(s: Sys) {
    Acquires(s.disp) && s.disp.k.kind == JobOp ==> s.disp.k.id !in s.created && !Waiting(At(s.db, s.disp.k))
  }

  ghost predicate OnceInv(s: Sys) {
    RunInv(s) && CreatedOnce(s) && CreatedOut(s) && AcquiredFresh(s)
  }

  // ------------------------------------- what creation with the digest rests on besides

  /** A job that waits to be admitted is preparing or has its digest. */
  ghost predicate QueuedReady(db: Db) {
    forall i :: 0 <= i < |db.queue| ==> RowReady(db, db.queue[i])
  }

  predicate RowReady(db: Db, row: QueueRow) {
    row.key.kind == JobOp && row.state == Queued ==>
      row.key.id in db.jobs && (db.jobs[row.key.id].status == Preparing || Committed(db, row.key.id))
  }

  /** An acquired job has its digest; while it is preparing and not read yet, it
      does not wait. */
  ghost predicate AcquiredReady(s: Sys) {
    Acquires(s.disp) && s.disp.k.kind == JobOp ==>
      if ReadsPreparing(s) then !Waiting(At(s.db, s.disp.k)) else Committed(s.db, s.disp.k.id)
  }

  ghost predicate CreatedReady(s: Sys) {
    forall id :: id in s.created ==> Committed(s.db, id)
  }

  ghost predicate DigestInv(s: Sys) {
    RunInv(s) && QueuedReady(s.db) && AcquiredReady(s) && CreatedReady(s)
  }

  // ----------------------------------------------- what the coupling rests on besides

  predicate Shut(s: Option<QueueState>) { s.Some? && s.value in CLOSED }

  /** Outside the queue, and committed or closed. */
  ghost predicate Out(db: Db, k: Key) {
    k.kind == JobOp ==> !Waiting(At(db, k)) && (Committed(db, k.id) || Shut(At(db, k)))
  }

  ghost predicate Launchable(s: Sys, k: Key) {
    Out(s.db, k) && (k.kind == JobOp ==> k.id !in s.created)
  }

  ghost predicate DispatchFits(s: Sys) {
    match s.disp
    case Admitted(k) => k.id !in s.created && (if ReadsPreparing(s) then At(s.db, k) == Some(Admitting) else Launchable(s, k))
    case Chosen(k) => Launchable(s, k)
    case Captured(k, inventory) => Launchable(s, k)
    case Prepared(k) => Launchable(s, k)
    case _ => true
  }

  ghost predicate CreatedFits(s: Sys) {
    forall id :: id in s.created ==> Out(s.db, JobKey(id))
  }

  predicate IntentFits(s: Sys, t: Txn) {
    t.TSync? && t.remote.status != Lost ==> PastAdmission(At(s.db, JobKey(t.id)))
  }

  ghost predicate IntentsFit(s: Sys) {
    forall t :: t in s.intents ==> IntentFits(s, t)
  }

  ghost predicate FitInv(s: Sys) {
    RunInv(s) && JobsFit(s.db) && DispatchFits(s) && CreatedFits(s) && IntentsFit(s)
  }
}
