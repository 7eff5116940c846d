/** The invariants of the control plane hold after every action: `RunInv` of any
    run, `OnceInv` of an unrushed one, `DigestInv` of an uncut one, `FitInv` of a
    guarded one. */
module ProtocolProofs {
  import opened Wrappers
  import opened Control
  import opened Transactions
  import opened Lease
  import opened History
  import opened Exact
  import opened Protocol

  // ------------------------------------------- what one transaction preserves

  /** The facts about any transaction the rest of this module works from. */
  ghost predicate Moves(db: Db, t: Txn, db': Db) {
    && Base(db) && Base(db')
    && BaseGuard(db, t)
    && db' == Next(db, t)
    && Shape(db, t, db')
    && Settled(db, db')
  }

  lemma TxnAlways(db: Db, t: Txn)
    requires Base(db) && BaseGuard(db, t)
    ensures Moves(db, t, Next(db, t))
  {
    TxnMoves(db, t);
    ShapeSettles(db, t, Next(db, t));
  }

  /** The facts about a guarded one. */
  ghost predicate Advances(db: Db, t: Txn, db': Db) {
    Moves(db, t, db') && JobsFit(db) && JobsFit(db') && Guard(db, t)
  }

  lemma TxnAdvances(db: Db, t: Txn)
    requires Inv(db) && Guard(db, t)
    ensures Advances(db, t, Next(db, t))
  {
    GuardedIsBased(db, t);
    TxnAlways(db, t);
    TxnKept(db, t);
  }

  lemma CommittedStays(db: Db, db': Db, id: string)
    requires Settled(db, db') && Committed(db, id)
    ensures Committed(db', id)
  {
  }

  lemma TerminalStays(db: Db, db': Db, k: Key)
    requires Settled(db, db') && RecordIsTerminal(db, k)
    ensures RecordIsTerminal(db', k)
  {
  }

  lemma JobAfter(db: Db, t: Txn, db': Db, id: string)
    requires Shape(db, t, db') && id in db.jobs
    ensures id in db'.jobs && (db'.jobs[id] == db.jobs[id] || JobMove(t, db.jobs[id], db'.jobs[id]))
  {
  }

  /** A record never returns to preparing. */
  lemma PastPreparingStays(db: Db, t: Txn, db': Db, k: Key)
    requires Shape(db, t, db') && PastPreparing(db, k)
    ensures PastPreparing(db', k)
  {
    if k.kind == JobOp { JobAfter(db, t, db', k.id); }
  }

  lemma PreparingIsUncommitted(db: Db, id: string)
    requires Base(db) && id in db.jobs
    ensures db.jobs[id].status == Preparing ==> db.jobs[id].digest.None?
  {
    var n := FindRow(db, JobKey(id));
    assert RowRecorded(db, db.queue[n]);
  }

  /** A job past its preparation and outside the queue comes back only by a requeue. */
  lemma PastStaysOut(db: Db, t: Txn, db': Db, id: string)
    requires Moves(db, t, db')
    requires PastPreparing(db, JobKey(id)) && !Waiting(At(db, JobKey(id)))
    requires t != TRequeue(JobKey(id))
    ensures !Waiting(At(db', JobKey(id)))
  {
    if t.TQueueJob? && t.id == id {
      assert db' == db;
    } else {
      assert KeyMove(t, JobKey(id), At(db, JobKey(id)), At(db', JobKey(id))) by { ShapeMovesKey(db, t, db', JobKey(id)); }
      OutMove(t, id, At(db, JobKey(id)), At(db', JobKey(id)));
    }
  }

  lemma LeftStays(db: Db, t: Txn, db': Db, id: string)
    requires Moves(db, t, db')
    requires Committed(db, id) && !Waiting(At(db, JobKey(id)))
    requires t != TRequeue(JobKey(id))
    ensures Committed(db', id) && !Waiting(At(db', JobKey(id)))
  {
    CommittedStays(db, db', id);
    PreparingIsUncommitted(db, id);
    PastStaysOut(db, t, db', id);
  }

  lemma OutMove(t: Txn, id: string, s: Option<QueueState>, s': Option<QueueState>)
    requires KeyMove(t, JobKey(id), s, s') && !Waiting(s)
    requires t != TRequeue(JobKey(id)) && !(t.TQueueJob? && t.id == id)
    ensures !Waiting(s')
  {
  }

  lemma ShutStays(db: Db, t: Txn, db': Db, k: Key)
    requires Moves(db, t, db') && Shut(At(db, k))
    ensures Shut(At(db', k))
  {
    assert KeyMove(t, k, At(db, k), At(db', k)) by { ShapeMovesKey(db, t, db', k); }
    ShutMove(t, k, At(db, k), At(db', k));
  }

  lemma ShutMove(t: Txn, k: Key, s: Option<QueueState>, s': Option<QueueState>)
    requires KeyMove(t, k, s, s') && Shut(s)
    ensures Shut(s') && (s == Some(Released) ==> s' == Some(Released))
  {
  }

  lemma PastAdmissionStays(db: Db, t: Txn, db': Db, k: Key)
    requires Moves(db, t, db') && PastAdmission(At(db, k))
    ensures PastAdmission(At(db', k))
  {
    assert KeyMove(t, k, At(db, k), At(db', k)) by { ShapeMovesKey(db, t, db', k); }
    PastMove(t, k, At(db, k), At(db', k));
  }

  lemma PastMove(t: Txn, k: Key, s: Option<QueueState>, s': Option<QueueState>)
    requires KeyMove(t, k, s, s') && PastAdmission(s)
    ensures PastAdmission(s')
  {
  }

  // ------------------------------------------------- every run, part by part

  lemma CreatedRunsKept(s: Sys, t: Txn, s': Sys)
    requires CreatedRuns(s) && Shape(s.db, t, s'.db) && s'.created == s.created
    ensures CreatedRuns(s')
  {
    forall id | id in s'.created ensures PastPreparing(s'.db, JobKey(id)) {
      PastPreparingStays(s.db, t, s'.db, JobKey(id));
    }
  }

  lemma ListedRunsKept(s: Sys, t: Txn, s': Sys)
    requires ListedRuns(s) && Shape(s.db, t, s'.db) && s'.listed == s.listed
    ensures ListedRuns(s')
  {
    forall id | id in s'.listed ensures PastPreparing(s'.db, JobKey(id)) {
      PastPreparingStays(s.db, t, s'.db, JobKey(id));
    }
  }

  lemma IntentsRunsKept(s: Sys, t: Txn, s': Sys)
    requires IntentsRuns(s) && Settled(s.db, s'.db) && Shape(s.db, t, s'.db)
    requires s'.created == s.created && s'.intents <= s.intents
    ensures IntentsRuns(s')
  {
    forall u | u in s'.intents ensures IntentRuns(s', u) {
      assert IntentRuns(s, u);
      if u.TBeginCleanup? && u.k.kind == BuildOp { TerminalStays(s.db, s'.db, u.k); }
      if u.TSync? { PastPreparingStays(s.db, t, s'.db, JobKey(u.id)); }
    }
  }

  lemma AdmittedKept(s: Sys, s': Sys)
    requires AdmittedInv(s) && Settled(s.db, s'.db) && s'.admitted == s.admitted
    ensures AdmittedInv(s')
  {
  }

  // ---------------------------------------------------------------- heartbeat

  /** A row whose job is preparing was preparing before, under the same lease,
      unless this transaction was its heartbeat. */
  lemma PreparingRow(db: Db, t: Txn, db': Db, i: nat)
    requires Moves(db, t, db') && i < |db.queue|
    requires var k := db.queue[i].key; k.kind == JobOp && k.id in db'.jobs && db'.jobs[k.id].status == Preparing
    ensures var k := db.queue[i].key; k.id in db.jobs && db.jobs[k.id].status == Preparing
    ensures i < |db'.queue| && db'.queue[i].key == db.queue[i].key
    ensures db'.queue[i] == db.queue[i] || LeaseMove(t, db.queue[i].key, db.queue[i].leasedAt, db'.queue[i].leasedAt)
    ensures db'.queue[i] != db.queue[i] ==> !t.TRequeue? && !t.TQueueJob?
    ensures t != TRequeue(db.queue[i].key) || !Run(db, t).Ok?
  {
    var k := db.queue[i].key;
    assert RowRecorded(db, db.queue[i]) && k == JobKey(k.id);
    RowAfter(db, t, db', i);
    JobAfter(db, t, db', k.id);
    if t.TRequeue? {
      RequeueMoves(db, t.k, i);
      MatchesAt(db.queue, i, {Admitting});
    } else if t.TQueueJob? {
      QueueMoves(db, t.id, t.digest, i);
    }
  }

  lemma RequeueMoves(db: Db, k: Key, i: nat)
    requires i < |db.queue|
    ensures var db' := Next(db, TRequeue(k));
            |db'.queue| == |db.queue| && (db'.queue[i] != db.queue[i] ==> db.queue[i].state == Admitting && db.queue[i].key == k)
  {
  }

  lemma QueueMoves(db: Db, id: string, digest: string, i: nat)
    requires i < |db.queue|
    ensures var db' := Next(db, TQueueJob(id, digest));
            && |db'.queue| == |db.queue|
            && (db' != db ==> id in db'.jobs && db'.jobs[id].status == JobQueued && Committed(db', id))
            && (db'.queue[i] != db.queue[i] ==> db.queue[i].key == JobKey(id))
  {
  }

  lemma AcquireTakesNext(db: Db, now: int)
    requires UniqueKeys(db.queue) && OneReserved(db.queue)
    ensures var n := NextOperation(db); var db' := Next(db, TAcquire(now));
            if n == |db.queue| then db' == db
            else db' == db.(queue := db.queue[n := db.queue[n].(state := Admitting, leasedAt := Some(now))])
  {
    var n := NextOperation(db);
    AcquireCommits(db, now);
    if n < |db.queue| {
      UpdateOne(db.queue, n, {Queued}, Patch(Some(Admitting), Put(now), false));
    }
  }

  lemma BeatsAfterAcquire(s: Sys, now: int, s': Sys)
    requires HeartbeatInv(s) && Base(s.db)
    requires s'.db == Next(s.db, TAcquire(now)) && s'.beats == Beat(s.db, s.beats, TAcquire(now))
    ensures HeartbeatInv(s')
  {
    AcquireTakesNext(s.db, now);
    var n := NextOperation(s.db);
    forall i | 0 <= i < |s'.db.queue| ensures Beating(s'.db, s'.beats, s'.db.queue[i]) {
      assert Beating(s.db, s.beats, s.db.queue[i]);
      if n < |s.db.queue| && i != n {
        assert s.db.queue[i].key != s.db.queue[n].key;
        assert s.db.queue[i].key == Key(s.db.queue[i].key.kind, s.db.queue[i].key.id);
      }
    }
  }

  lemma RenewSets(db: Db, k: Key, now: int, i: nat)
    requires UniqueKeys(db.queue) && i < |db.queue| && Run(db, TRenew(k, now)).Ok?
    ensures var q := Next(db, TRenew(k, now)).queue;
            && i < |q| && q[i].key == db.queue[i].key
            && (if db.queue[i].key == k then q[i].leasedAt == Some(now) else q[i] == db.queue[i])
  {
    if db.queue[i].key == k { MatchesAt(db.queue, i, OPEN); }
  }

  lemma BeatsAfterRenew(s: Sys, k: Key, now: int, s': Sys)
    requires HeartbeatInv(s) && UniqueKeys(s.db.queue)
    requires s'.db == Next(s.db, TRenew(k, now)) && s'.beats == Beat(s.db, s.beats, TRenew(k, now))
    ensures HeartbeatInv(s')
  {
    RenewLength(s.db, k, now);
    forall i | 0 <= i < |s'.db.queue| ensures Beating(s'.db, s'.beats, s'.db.queue[i]) {
      assert Beating(s.db, s.beats, s.db.queue[i]);
      RenewBeats(s.db, s.beats, k, now, i);
    }
  }

  lemma RenewBeats(db: Db, beats: map<Key, int>, k: Key, now: int, i: nat)
    requires UniqueKeys(db.queue) && i < |db.queue| && Beating(db, beats, db.queue[i])
    ensures var db' := Next(db, TRenew(k, now));
            i < |db'.queue| && Beating(db', Beat(db, beats, TRenew(k, now)), db'.queue[i])
  {
    RenewLength(db, k, now);
    if Run(db, TRenew(k, now)).Ok? { RenewSets(db, k, now, i); }
  }

  lemma RenewLength(db: Db, k: Key, now: int)
    ensures var db' := Next(db, TRenew(k, now)); |db'.queue| == |db.queue| && db'.jobs == db.jobs
    ensures !Run(db, TRenew(k, now)).Ok? ==> Next(db, TRenew(k, now)) == db
  {
  }

  lemma BeatsAfterCreate(s: Sys, id: string, now: int, s': Sys)
    requires HeartbeatInv(s) && Base(s.db)
    requires s'.db == Next(s.db, TCreateJob(id, now)) && s'.beats == Beat(s.db, s.beats, TCreateJob(id, now))
    ensures HeartbeatInv(s')
  {
    forall i | 0 <= i < |s'.db.queue| ensures Beating(s'.db, s'.beats, s'.db.queue[i]) {
      if i < |s.db.queue| { assert Beating(s.db, s.beats, s.db.queue[i]) && RowRecorded(s.db, s.db.queue[i]); }
    }
  }

  /** A heartbeat is only kept for an operation of the queue. */
  lemma BeatsAfterBuild(s: Sys, id: string, now: int, s': Sys)
    requires HeartbeatInv(s) && BeatsKnown(s) && Base(s.db)
    requires s'.db == Next(s.db, TCreateBuild(id, now)) && s'.beats == s.beats
    ensures HeartbeatInv(s')
  {
    forall i | 0 <= i < |s'.db.queue| ensures Beating(s'.db, s'.beats, s'.db.queue[i]) {
      if i < |s.db.queue| {
        assert Beating(s.db, s.beats, s.db.queue[i]) && RowRecorded(s.db, s.db.queue[i]);
      } else {
        assert s'.db.queue[i].key == BuildKey(id) && !HasRow(s.db.queue, BuildKey(id));
      }
    }
  }

  lemma BeatsAfterRequeue(s: Sys, k: Key, s': Sys)
    requires HeartbeatInv(s) && Moves(s.db, TRequeue(k), s'.db) && s'.beats == Beat(s.db, s.beats, TRequeue(k))
    ensures HeartbeatInv(s')
  {
    RequeueLength(s.db, k);
    forall i | 0 <= i < |s'.db.queue| ensures Beating(s'.db, s'.beats, s'.db.queue[i]) {
      assert Beating(s.db, s.beats, s.db.queue[i]);
      RequeueBeats(s.db, s.beats, k, i);
    }
  }

  lemma RequeueBeats(db: Db, beats: map<Key, int>, k: Key, i: nat)
    requires UniqueKeys(db.queue) && BaseGuard(db, TRequeue(k))
    requires i < |db.queue| && Beating(db, beats, db.queue[i])
    ensures var db' := Next(db, TRequeue(k));
            i < |db'.queue| && Beating(db', Beat(db, beats, TRequeue(k)), db'.queue[i])
  {
    RequeueLength(db, k);
    RequeueMoves(db, k, i);
    if Run(db, TRequeue(k)).Ok? && db.queue[i].key == k {
      RequeueMatches(db, k, i);
      RequeueClears(db, k, i);
    }
  }

  lemma RequeueMatches(db: Db, k: Key, i: nat)
    requires UniqueKeys(db.queue) && i < |db.queue| && db.queue[i].key == k && Run(db, TRequeue(k)).Ok?
    ensures Selects(db.queue[i], k, {Admitting})
  {
    var n := Find(db, k, {Admitting});
    assert n == i;
  }

  lemma RequeueLength(db: Db, k: Key)
    ensures var db' := Next(db, TRequeue(k)); |db'.queue| == |db.queue| && db'.jobs == db.jobs
    ensures !Run(db, TRequeue(k)).Ok? ==> Next(db, TRequeue(k)) == db
  {
  }

  lemma RequeueClears(db: Db, k: Key, i: nat)
    requires i < |db.queue| && Selects(db.queue[i], k, {Admitting}) && Run(db, TRequeue(k)).Ok?
    ensures var q := Next(db, TRequeue(k)).queue; i < |q| && q[i].key == k && q[i].leasedAt.None?
  {
  }

  lemma BeatsAfterOther(s: Sys, t: Txn, s': Sys)
    requires HeartbeatInv(s) && Moves(s.db, t, s'.db) && s'.beats == s.beats
    requires !t.TCreateJob? && !t.TCreateBuild? && !t.TAcquire? && !t.TRenew? && !t.TRequeue?
    ensures HeartbeatInv(s')
  {
    NothingAppended(s.db, t, s'.db);
    forall i | 0 <= i < |s'.db.queue| ensures Beating(s'.db, s'.beats, s'.db.queue[i]) {
      var k := s.db.queue[i].key;
      RowAfter(s.db, t, s'.db, i);
      assert Beating(s.db, s.beats, s.db.queue[i]);
      if k.kind == JobOp && k.id in s'.db.jobs && s'.db.jobs[k.id].status == Preparing {
        PreparingRow(s.db, t, s'.db, i);
      }
    }
  }

  lemma NothingAppended(db: Db, t: Txn, db': Db)
    requires Shape(db, t, db') && !t.TCreateJob? && !t.TCreateBuild?
    ensures |db'.queue| == |db.queue|
  {
  }

  lemma HeartbeatKept(s: Sys, t: Txn, s': Sys)
    requires HeartbeatInv(s) && BeatsKnown(s) && Moves(s.db, t, s'.db) && s'.beats == Beat(s.db, s.beats, t)
    ensures HeartbeatInv(s')
  {
    match t
    case TCreateJob(id, now) => BeatsAfterCreate(s, id, now, s');
    case TCreateBuild(id, now) => BeatsAfterBuild(s, id, now, s');
    case TAcquire(now) => BeatsAfterAcquire(s, now, s');
    case TRenew(k, now) => BeatsAfterRenew(s, k, now, s');
    case TRequeue(k) => BeatsAfterRequeue(s, k, s');
    case _ => BeatsAfterOther(s, t, s');
  }

  lemma BeatsKnownKept(s: Sys, t: Txn, s': Sys)
    requires BeatsKnown(s) && Moves(s.db, t, s'.db) && s'.beats == Beat(s.db, s.beats, t)
    ensures BeatsKnown(s')
  {
    forall k | k in s'.beats ensures HasRow(s'.db.queue, k) {
      if k in s.beats {
        RowStays(s.db, t, s'.db, k);
      } else {
        NewBeat(s.db, s.beats, t, k);
      }
    }
  }

  lemma RowStays(db: Db, t: Txn, db': Db, k: Key)
    requires Shape(db, t, db') && HasRow(db.queue, k)
    ensures HasRow(db'.queue, k)
  {
    var i := FindRow(db, k);
    RowAfter(db, t, db', i);
    assert db'.queue[i].key == k;
  }

  lemma NewBeat(db: Db, beats: map<Key, int>, t: Txn, k: Key)
    requires Base(db) && Moves(db, t, Next(db, t)) && k in Beat(db, beats, t) && k !in beats
    ensures HasRow(Next(db, t).queue, k)
  {
    if t.TCreateJob? {
      var q := Next(db, t).queue;
      assert q[|q| - 1].key == k;
    } else {
      assert HasRow(db.queue, k) by {
        if t.TAcquire? {
          assert db.queue[NextOperation(db)].key == k;
        } else {
          var i := Find(db, k, OPEN);
          assert db.queue[i].key == k;
        }
      }
      RowStays(db, t, Next(db, t), k);
    }
  }

  // ------------------------------------------------------ every run, by action

  /** Everything but the dispatcher's own part. */
  ghost predicate RestRuns(s: Sys) {
    && Base(s.db) && CreatedRuns(s) && ListedRuns(s) && IntentsRuns(s) && AdmittedInv(s)
    && HeartbeatInv(s) && BeatsKnown(s)
  }

  lemma CommitRuns(s: Sys, t: Txn, s': Sys)
    requires RestRuns(s) && BaseGuard(s.db, t)
    requires s'.db == Next(s.db, t) && s'.beats == Beat(s.db, s.beats, t)
    requires s'.created == s.created && s'.admitted == s.admitted && s'.listed == s.listed && s'.intents <= s.intents
    ensures RestRuns(s') && Moves(s.db, t, s'.db)
  {
    TxnAlways(s.db, t);
    CreatedRunsKept(s, t, s');
    ListedRunsKept(s, t, s');
    IntentsRunsKept(s, t, s');
    AdmittedKept(s, s');
    HeartbeatKept(s, t, s');
    BeatsKnownKept(s, t, s');
  }

  /** The transaction an action commits; `TClaim` stands for none. */
  function TxnOf(s: Sys, a: Action): Txn
    requires Enabled(s, a)
  {
    match a
    case Handle(t) => t
    case Acquire(now) => TAcquire(now)
    case Save => TSaveBaseline(s.disp.k, s.disp.inventory)
    case PrepareFails(permanent) => TRequeue(s.disp.k)
    case Activate => TActivate(s.disp.k)
    case Fail(now) => TFailJob(s.disp.k.id, now)
    case Request => TBeginCleanup(s.disp.k)
    case _ => TClaim
  }

  predicate Commits(s: Sys, a: Action)
    requires Enabled(s, a)
  {
    || a.Handle? || a.Acquire? || a.Save? || a.Activate? || a.Fail? || a.Request?
    || (a.PrepareFails? && !(a.permanent && s.disp.k.kind == JobOp))
  }

  lemma OnlyTxns(s: Sys, a: Action)
    requires Enabled(s, a)
    ensures Apply(s, a).db == if Commits(s, a) then Next(s.db, TxnOf(s, a)) else s.db
  {
  }

  /** Whatever the interleaving, a transaction of the run has its base guard. */
  lemma CommitIsBased(s: Sys, a: Action)
    requires RunInv(s) && Enabled(s, a) && Commits(s, a)
    ensures BaseGuard(s.db, TxnOf(s, a))
  {
    assert a.Handle? && a.t in s.intents ==> IntentRuns(s, a.t);
  }

  lemma CommitMoves(s: Sys, a: Action)
    requires RunInv(s) && Enabled(s, a) && Commits(s, a)
    ensures Moves(s.db, TxnOf(s, a), Apply(s, a).db)
  {
    CommitIsBased(s, a);
    TxnAlways(s.db, TxnOf(s, a));
  }

  lemma DispatchStays(s: Sys, t: Txn, s': Sys)
    requires DispatchRuns(s) && Moves(s.db, t, s'.db) && s'.disp == s.disp && s'.created == s.created
    ensures DispatchRuns(s')
  {
    match s.disp
    case Chosen(k) => PastPreparingStays(s.db, t, s'.db, k);
    case Captured(k, _) => PastPreparingStays(s.db, t, s'.db, k);
    case Prepared(k) => PastPreparingStays(s.db, t, s'.db, k);
    case Refused(k) => PastPreparingStays(s.db, t, s'.db, k);
    case Failing(k) => TerminalStays(s.db, s'.db, k);
    case _ =>
  }

  lemma FailRecords(db: Db, id: string, now: int)
    ensures Run(db, TFailJob(id, now)).Ok? ==> RecordIsTerminal(Next(db, TFailJob(id, now)), JobKey(id))
  {
  }

  lemma CommitKeepsRun(s: Sys, a: Action)
    requires RunInv(s) && Enabled(s, a) && Commits(s, a) && !a.Acquire?
    ensures RunInv(Apply(s, a))
  {
    var s' := Apply(s, a);
    var t := TxnOf(s, a);
    CommitIsBased(s, a);
    CommitRuns(s, t, s');
    if a.Handle? {
      DispatchStays(s, t, s');
    } else if a.Save? {
      PastPreparingStays(s.db, t, s'.db, s.disp.k);
    } else if a.Fail? {
      assert s.disp.k == JobKey(s.disp.k.id);
      FailRecords(s.db, s.disp.k.id, a.now);
    }
  }

  lemma AcquireKeepsRun(s: Sys, now: int)
    requires RunInv(s) && Enabled(s, Acquire(now))
    ensures RunInv(Apply(s, Acquire(now)))
  {
    if NextOperation(s.db) < |s.db.queue| {
      var s' := Apply(s, Acquire(now));
      var s0 := s'.(admitted := s.admitted);
      assert RestRuns(s0) by { CommitRuns(s, TAcquire(now), s0); }
      SameButLog(s0, s');
      assert AdmittedInv(s') by { AdmissionIsNewest(s, now); }
    }
  }

  lemma SameButLog(s: Sys, s': Sys)
    requires s' == s.(admitted := s'.admitted) && RestRuns(s)
    ensures CreatedRuns(s') && ListedRuns(s') && IntentsRuns(s') && HeartbeatInv(s') && BeatsKnown(s')
  {
    forall t | t in s'.intents ensures IntentRuns(s', t) { assert IntentRuns(s, t); }
  }

  /** Nothing older than the admitted operation is left, so no admission is
      ever older than one before it. */
  lemma AdmissionIsNewest(s: Sys, now: int)
    requires RunInv(s) && Enabled(s, Acquire(now)) && NextOperation(s.db) < |s.db.queue|
    ensures AdmittedInv(Apply(s, Acquire(now)))
    ensures OlderReleased(s.db, NextOperation(s.db))
  {
    var n := NextOperation(s.db);
    var s' := Apply(s, Acquire(now));
    HeadIsOldest(s.db);
    assert s'.admitted == s.admitted + [n];
    assert s'.db.queue == s.db.queue[n := s'.db.queue[n]] by { AcquireTakesNext(s.db, now); }
    AdmittedMore(s.db, s'.db, s.admitted, n);
  }

  lemma AdmittedMore(db: Db, db': Db, admitted: seq<nat>, n: nat)
    requires n < |db.queue| && |db'.queue| == |db.queue| && db'.queue == db.queue[n := db'.queue[n]]
    requires OlderReleased(db, n) && db.queue[n].state == Queued
    requires forall i, j :: 0 <= i < j < |admitted| ==> admitted[i] <= admitted[j]
    requires forall i :: 0 <= i < |admitted| ==> OlderReleased(db, admitted[i])
    ensures forall i, j :: 0 <= i < j < |admitted + [n]| ==> (admitted + [n])[i] <= (admitted + [n])[j]
    ensures forall i :: 0 <= i < |admitted + [n]| ==> OlderReleased(db', (admitted + [n])[i])
  {
  }

  lemma HeadIsOldest(db: Db)
    requires NextOperation(db) < |db.queue|
    ensures OlderReleased(db, NextOperation(db))
  {
  }

  lemma QuietKeepsRun(s: Sys, a: Action)
    requires RunInv(s) && Enabled(s, a) && !Commits(s, a)
    ensures RunInv(Apply(s, a))
  {
    var s' := Apply(s, a);
    assert s'.db == s.db;
    if a.Create? {
      assert s.disp.k == JobKey(s.disp.k.id);
      forall id | id in s'.created ensures PastPreparing(s'.db, JobKey(id)) {
        assert id in s.created || id == s.disp.k.id;
      }
    }
    forall t | t in s'.intents ensures IntentRuns(s', t) { assert t in s.intents ==> IntentRuns(s, t); }
  }

  /** Every action of every run keeps `RunInv`. */
  lemma StepRuns(s: Sys, a: Action)
    requires RunInv(s) && Enabled(s, a)
    ensures RunInv(Apply(s, a))
  {
    if a.Acquire? {
      AcquireKeepsRun(s, a.now);
    } else if Commits(s, a) {
      CommitKeepsRun(s, a);
    } else {
      QuietKeepsRun(s, a);
    }
  }

  // ---------------------------------------------- both sides of the read window

  /** A job changes only under the transactions that write it. */
  lemma SameJob(db: Db, t: Txn, db': Db, id: string)
    requires Shape(db, t, db') && id in db.jobs && !WritesJob(t, id) && !t.TEmergency?
    ensures id in db'.jobs && db'.jobs[id] == db.jobs[id]
  {
  }

  /** The transactions of a run that are not the dispatcher's. */
  lemma Outsiders(s: Sys, t: Txn)
    requires RunInv(s) && Enabled(s, Handle(t))
    ensures !t.TRequeue? && !t.TAcquire? && !t.TSaveBaseline?
    ensures t.TEmergency? ==> s.disp.Idle?
    ensures t.TSync? ==> t.remote.status != Preparing && PastPreparing(s.db, JobKey(t.id))
    ensures t.TActivate? ==> t.k.kind == JobOp && t.k.id in s.created
  {
    assert t in s.intents ==> IntentRuns(s, t);
  }

  lemma LeavesQueueAlone(db: Db, t: Txn, db': Db, k: Key)
    requires Moves(db, t, db') && k.kind == JobOp && !Waiting(At(db, k))
    requires !t.TRequeue? && !(t.TQueueJob? && t.id == k.id)
    ensures !Waiting(At(db', k))
  {
    assert k == JobKey(k.id);
    assert KeyMove(t, k, At(db, k), At(db', k)) by { ShapeMovesKey(db, t, db', k); }
    OutMove(t, k.id, At(db, k), At(db', k));
  }

  lemma AcquiredAt(db: Db, now: int)
    requires Base(db) && NextOperation(db) < |db.queue|
    ensures At(Next(db, TAcquire(now)), db.queue[NextOperation(db)].key) == Some(Admitting)
    ensures Next(db, TAcquire(now)).jobs == db.jobs
  {
    var n := NextOperation(db);
    AcquireTakesNext(db, now);
    AtUpdated(db.queue, n, db.queue[n].(state := Admitting, leasedAt := Some(now)));
  }

  lemma AtUpdated(q: seq<QueueRow>, n: nat, row: QueueRow)
    requires UniqueKeys(q) && n < |q| && row.key == q[n].key
    ensures StateOf(q[n := row], row.key) == Some(row.state)
  {
    var q' := q[n := row];
    forall i, j | 0 <= i < j < |q'| ensures q'[i].key != q'[j].key {
      assert q[i].key != q[j].key;
    }
    AtRow(q', n);
  }

  /** The operation about to be acquired. */
  lemma HeadWaits(s: Sys)
    requires Base(s.db) && NextOperation(s.db) < |s.db.queue|
    ensures var k := s.db.queue[NextOperation(s.db)].key;
            At(s.db, k) == Some(Queued) && k == Key(k.kind, k.id) && RowRecorded(s.db, s.db.queue[NextOperation(s.db)])
  {
    AtRow(s.db.queue, NextOperation(s.db));
  }

  lemma UnreadIsPast(s: Sys)
    requires RunInv(s) && Acquires(s.disp) && s.disp.k.kind == JobOp && !ReadsPreparing(s) && !Waiting(At(s.db, s.disp.k))
    ensures PastPreparing(s.db, s.disp.k)
  {
    assert s.disp.k == JobKey(s.disp.k.id);
    var n := RowAt(s.db, s.disp.k);
  }

  // ------------------------------------------------------ unrushed runs

  lemma CreatedOutKept(s: Sys, t: Txn, s': Sys)
    requires CreatedRuns(s) && CreatedOut(s) && Moves(s.db, t, s'.db) && s'.created == s.created
    requires t.TRequeue? && t.k.kind == JobOp ==> t.k.id !in s.created
    ensures CreatedOut(s')
  {
    forall id | id in s'.created ensures !Waiting(At(s'.db, JobKey(id))) { PastStaysOut(s.db, t, s'.db, id); }
  }

  /** Nobody but the dispatcher puts an acquired job back into the queue. */
  lemma HandleOnce(s: Sys, t: Txn)
    requires RunInv(s) && AcquiredFresh(s)
    requires Enabled(s, Handle(t)) && Unrushed(s, Handle(t)) && Moves(s.db, t, Next(s.db, t))
    ensures AcquiredFresh(Apply(s, Handle(t)))
  {
    if Acquires(s.disp) && s.disp.k.kind == JobOp {
      var k := s.disp.k;
      assert k == JobKey(k.id);
      assert !t.TRequeue? by { Outsiders(s, t); }
      if !ReadsPreparing(s) {
        UnreadIsPast(s);
        PastStaysOut(s.db, t, Next(s.db, t), k.id);
      } else if t.TQueueJob? && t.id == k.id {
        assert Next(s.db, t) == s.db;
      } else {
        LeavesQueueAlone(s.db, t, Next(s.db, t), k);
      }
    }
  }

  lemma AcquireOnce(s: Sys, now: int)
    requires Base(s.db) && CreatedOut(s) && Enabled(s, Acquire(now))
    ensures AcquiredFresh(Apply(s, Acquire(now)))
  {
    if NextOperation(s.db) < |s.db.queue| {
      HeadWaits(s);
      AcquiredAt(s.db, now);
    }
  }

  /** The dispatcher saves a baseline or is done with its operation. */
  lemma DispatchOnce(s: Sys, a: Action)
    requires AcquiredFresh(s) && Enabled(s, a) && Commits(s, a) && !a.Handle? && !a.Acquire?
    ensures AcquiredFresh(Apply(s, a))
  {
  }

  lemma CommitOnce(s: Sys, a: Action)
    requires OnceInv(s) && Enabled(s, a) && Unrushed(s, a) && Commits(s, a)
    ensures CreatedOnce(Apply(s, a)) && CreatedOut(Apply(s, a)) && AcquiredFresh(Apply(s, a))
  {
    var t := TxnOf(s, a);
    CommitMoves(s, a);
    assert t.TRequeue? && t.k.kind == JobOp ==> t.k.id !in s.created by { if a.Handle? { Outsiders(s, t); } }
    CreatedOutKept(s, t, Apply(s, a));
    match a
    case Handle(u) => HandleOnce(s, u);
    case Acquire(now) => AcquireOnce(s, now);
    case _ => DispatchOnce(s, a);
  }

  lemma CreateIsFresh(s: Sys, outcome: Outcome)
    requires CreatedOnce(s) && CreatedOut(s) && AcquiredFresh(s) && Enabled(s, Create(outcome))
    ensures CreatedOnce(Apply(s, Create(outcome))) && CreatedOut(Apply(s, Create(outcome)))
    ensures s.disp.k.id !in s.created
  {
    var s' := Apply(s, Create(outcome));
    var k := s.disp.k;
    assert k == JobKey(k.id);
    forall id | id in s'.created ensures !Waiting(At(s'.db, JobKey(id))) { assert id in s.created || id == k.id; }
  }

  lemma QuietOnce(s: Sys, a: Action)
    requires CreatedOnce(s) && CreatedOut(s) && AcquiredFresh(s) && Enabled(s, a) && !Commits(s, a)
    ensures CreatedOnce(Apply(s, a)) && CreatedOut(Apply(s, a)) && AcquiredFresh(Apply(s, a))
  {
    if a.Create? { CreateIsFresh(s, a.outcome); }
  }

  /** Every action of an unrushed run keeps what at-most-once rests on. */
  lemma StepOnce(s: Sys, a: Action)
    requires OnceInv(s) && Enabled(s, a) && Unrushed(s, a)
    ensures OnceInv(Apply(s, a))
  {
    StepRuns(s, a);
    if Commits(s, a) {
      CommitOnce(s, a);
    } else {
      QuietOnce(s, a);
    }
  }

  // ---------------------------------------------------------- uncut runs

  /** What one transaction makes of a waiting job: it stays preparing, is
      committed, or leaves the queue. */
  lemma RowReadyAfter(db: Db, t: Txn, db': Db, i: nat)
    requires Moves(db, t, db') && i < |db.queue| && RowReady(db, db.queue[i])
    requires t.TRequeue? && t.k.kind == JobOp ==> Committed(db, t.k.id)
    requires t.TSync? ==> PastPreparing(db, JobKey(t.id))
    ensures i < |db'.queue| && RowReady(db', db'.queue[i])
  {
    var k := db.queue[i].key;
    RowAfter(db, t, db', i);
    if k.kind == JobOp && db'.queue[i].state == Queued {
      if Committed(db, k.id) {
        CommittedStays(db, db', k.id);
      } else if t.TQueueJob? && t.id == k.id {
        QueueMoves(db, t.id, t.digest, i);
      } else {
        assert db.queue[i].state == Queued by { StaysQueued(t, db.queue[i], db'.queue[i]); }
        WaitingStays(db, t, i);
      }
    }
  }

  lemma StaysQueued(t: Txn, row: QueueRow, row': QueueRow)
    requires row' == row || RowMove(t, row, row')
    requires row.key.kind == JobOp && row'.state == Queued
    requires t != TRequeue(row.key) && !(t.TQueueJob? && t.id == row.key.id)
    ensures row.state == Queued
  {
  }

  lemma WaitingStays(db: Db, t: Txn, i: nat)
    requires UniqueKeys(db.queue) && i < |db.queue| && db.queue[i].state == Queued && db.queue[i].key.kind == JobOp
    requires var id := db.queue[i].key.id; id in db.jobs && db.jobs[id].status == Preparing
    requires !(t.TQueueJob? && t.id == db.queue[i].key.id) && (t.TSync? ==> PastPreparing(db, JobKey(t.id)))
    ensures var id := db.queue[i].key.id; var db' := Next(db, t);
            i < |db'.queue| && id in db'.jobs && (db'.jobs[id].status == Preparing || db'.queue[i].state != Queued)
  {
    var k := db.queue[i].key;
    assert k == JobKey(k.id);
    if t.TEmergency? {
      var n := Oldest(db.queue, EXECUTING);
      if n < |db.queue| { assert db.queue[n].key != k; }
    }
  }

  lemma NewJobPrepares(db: Db, t: Txn, i: nat)
    requires |db.queue| <= i < |Next(db, t).queue|
    ensures RowReady(Next(db, t), Next(db, t).queue[i])
  {
  }

  lemma QueuedReadyKept(db: Db, t: Txn, db': Db)
    requires Moves(db, t, db') && QueuedReady(db)
    requires t.TRequeue? && t.k.kind == JobOp ==> Committed(db, t.k.id)
    requires t.TSync? ==> PastPreparing(db, JobKey(t.id))
    ensures QueuedReady(db')
  {
    forall i | 0 <= i < |db'.queue| ensures RowReady(db', db'.queue[i]) {
      if i < |db.queue| {
        RowReadyAfter(db, t, db', i);
      } else {
        NewJobPrepares(db, t, i);
      }
    }
  }

  lemma CreatedReadyKept(s: Sys, db': Db)
    requires CreatedReady(s) && Settled(s.db, db')
    ensures forall id :: id in s.created ==> Committed(db', id)
  {
    forall id | id in s.created ensures Committed(db', id) { CommittedStays(s.db, db', id); }
  }

  lemma StartCommits(db: Db, id: string, digest: string)
    ensures Next(db, TQueueJob(id, digest)) == db || Committed(Next(db, TQueueJob(id, digest)), id)
  {
  }

  /** A job that is not read yet stays preparing and out of the queue, or is started. */
  lemma WindowReady(s: Sys, t: Txn)
    requires RunInv(s) && ReadsPreparing(s) && !Waiting(At(s.db, s.disp.k))
    requires Enabled(s, Handle(t)) && Uncut(s, Handle(t)) && Moves(s.db, t, Next(s.db, t))
    ensures AcquiredReady(Apply(s, Handle(t)))
  {
    var k := s.disp.k;
    Outsiders(s, t);
    if t.TQueueJob? && t.id == k.id {
      StartCommits(s.db, t.id, t.digest);
      PreparingIsUncommitted(Next(s.db, t), k.id);
    } else {
      SameJob(s.db, t, Next(s.db, t), k.id);
      LeavesQueueAlone(s.db, t, Next(s.db, t), k);
    }
  }

  lemma HandleReady(s: Sys, t: Txn)
    requires RunInv(s) && AcquiredReady(s)
    requires Enabled(s, Handle(t)) && Uncut(s, Handle(t)) && Moves(s.db, t, Next(s.db, t))
    ensures AcquiredReady(Apply(s, Handle(t)))
  {
    if Acquires(s.disp) && s.disp.k.kind == JobOp {
      if ReadsPreparing(s) {
        WindowReady(s, t);
      } else {
        CommittedStays(s.db, Next(s.db, t), s.disp.k.id);
        PreparingIsUncommitted(Next(s.db, t), s.disp.k.id);
      }
    }
  }

  lemma AcquireReady(s: Sys, now: int)
    requires Base(s.db) && QueuedReady(s.db) && Enabled(s, Acquire(now))
    ensures AcquiredReady(Apply(s, Acquire(now)))
  {
    var n := NextOperation(s.db);
    if n < |s.db.queue| {
      HeadWaits(s);
      assert RowReady(s.db, s.db.queue[n]);
      AcquiredAt(s.db, now);
    }
  }

  lemma DispatchReady(s: Sys, a: Action)
    requires AcquiredReady(s) && Enabled(s, a) && Commits(s, a) && !a.Handle? && !a.Acquire?
    ensures AcquiredReady(Apply(s, a))
  {
  }

  lemma CommitReady(s: Sys, a: Action)
    requires DigestInv(s) && Enabled(s, a) && Uncut(s, a) && Commits(s, a)
    ensures QueuedReady(Apply(s, a).db) && AcquiredReady(Apply(s, a)) && CreatedReady(Apply(s, a))
  {
    var t := TxnOf(s, a);
    CommitMoves(s, a);
    assert (t.TRequeue? && t.k.kind == JobOp ==> Committed(s.db, t.k.id)) && (t.TSync? ==> PastPreparing(s.db, JobKey(t.id))) by {
      if a.Handle? { Outsiders(s, t); }
    }
    QueuedReadyKept(s.db, t, Apply(s, a).db);
    CreatedReadyKept(s, Apply(s, a).db);
    match a
    case Handle(u) => HandleReady(s, u);
    case Acquire(now) => AcquireReady(s, now);
    case _ => DispatchReady(s, a);
  }

  lemma QuietReady(s: Sys, a: Action)
    requires QueuedReady(s.db) && AcquiredReady(s) && CreatedReady(s) && Enabled(s, a) && !Commits(s, a)
    ensures QueuedReady(Apply(s, a).db) && AcquiredReady(Apply(s, a)) && CreatedReady(Apply(s, a))
  {
    var s' := Apply(s, a);
    assert s'.db == s.db;
    forall id | id in s'.created ensures Committed(s'.db, id) { assert id in s.created || (a.Create? && id == s.disp.k.id); }
  }

  /** Every action of an uncut run keeps what creation with the digest rests on. */
  lemma StepReady(s: Sys, a: Action)
    requires DigestInv(s) && Enabled(s, a) && Uncut(s, a)
    ensures DigestInv(Apply(s, a))
  {
    StepRuns(s, a);
    if Commits(s, a) {
      CommitReady(s, a);
    } else {
      QuietReady(s, a);
    }
  }

  // -------------------------------------------------------- guarded runs

  lemma IntentsKept(s: Sys, t: Txn, s': Sys)
    requires IntentsFit(s) && Moves(s.db, t, s'.db) && s'.intents <= s.intents
    ensures IntentsFit(s')
  {
    forall u | u in s'.intents ensures IntentFits(s', u) {
      assert IntentFits(s, u);
      if u.TSync? && u.remote.status != Lost { PastAdmissionStays(s.db, t, s'.db, JobKey(u.id)); }
    }
  }

  lemma ShutIsOut(db: Db, t: Txn, db': Db, k: Key)
    requires Moves(db, t, db') && Shut(At(db, k))
    ensures Out(db', k)
  {
    ShutStays(db, t, db', k);
  }

  lemma OutStays(db: Db, t: Txn, db': Db, k: Key)
    requires Moves(db, t, db') && Out(db, k)
    requires k.kind == JobOp ==> t != TRequeue(k)
    ensures Out(db', k)
  {
    if k.kind == JobOp {
      assert k == JobKey(k.id);
      if Shut(At(db, k)) {
        ShutIsOut(db, t, db', k);
      } else {
        LeftStays(db, t, db', k.id);
      }
    }
  }

  lemma CreatedFitsKept(s: Sys, t: Txn, s': Sys)
    requires CreatedFits(s) && Moves(s.db, t, s'.db) && s'.created == s.created
    requires t.TRequeue? && t.k.kind == JobOp ==> t.k.id !in s.created
    ensures CreatedFits(s')
  {
    forall id | id in s'.created ensures Out(s'.db, JobKey(id)) { OutStays(s.db, t, s'.db, JobKey(id)); }
  }

  /** Moving a job on that is out of the queue has its guard. */
  lemma OutIsGuarded(db: Db, k: Key)
    requires Base(db) && Out(db, k)
    ensures AdmittedGuard(db, k)
  {
    if Matches(db.queue, k, {Admitting}) {
      var n := Find(db, k, {Admitting});
      AtRow(db.queue, n);
    }
  }

  /** A report past the admission has its guard. */
  lemma ReportIsGuarded(db: Db, id: string, remote: Remote)
    requires Inv(db) && PastAdmission(At(db, JobKey(id))) && remote.status != Preparing
    ensures SyncGuard(db, id, remote)
  {
    var n := RowAt(db, JobKey(id));
    MatchesAt(db.queue, n, EXECUTING);
    MatchesAt(db.queue, n, {Active});
  }

  /** In a guarded run every transaction has its guard. */
  lemma CommitIsGuarded(s: Sys, a: Action)
    requires FitInv(s) && Enabled(s, a) && Guarded(s, a) && Commits(s, a)
    ensures Guard(s.db, TxnOf(s, a))
  {
    var t := TxnOf(s, a);
    if a.Handle? {
      Outsiders(s, t);
      assert t in s.intents ==> IntentFits(s, t);
      if t.TSync? && t.remote.status != Lost {
        ReportIsGuarded(s.db, t.id, t.remote);
      } else if t.TActivate? {
        assert t.k == JobKey(t.k.id);
        OutIsGuarded(s.db, t.k);
      }
    } else if a.Activate? || a.PrepareFails? {
      var k := s.disp.k;
      assert k == Key(k.kind, k.id);
      OutIsGuarded(s.db, k);
    }
  }

  /** An unread acquisition survives any transaction that leaves its job alone. */
  lemma AdmittedRowKept(s: Sys, t: Txn, s': Sys, k: Key)
    requires k.kind == JobOp && k.id in s.db.jobs && At(s.db, k) == Some(Admitting) && Moves(s.db, t, s'.db)
    requires LeavesAlone(t, k)
    ensures At(s'.db, k) == Some(Admitting) && k.id in s'.db.jobs && s'.db.jobs[k.id] == s.db.jobs[k.id]
  {
    assert k == JobKey(k.id);
    SameJob(s.db, t, s'.db, k.id);
    var n := RowAt(s.db, k);
    RowAfter(s.db, t, s'.db, n);
    StaysAdmitting(t, s.db.queue[n], s'.db.queue[n]);
    AtRow(s'.db.queue, n);
  }

  /** None of the transactions that can move an admitted job or its row. */
  predicate LeavesAlone(t: Txn, k: Key) {
    !WritesJob(t, k.id) && t != TRequeue(k) && t != TActivate(k) && t != TBeginCleanup(k) && !t.TEmergency?
  }

  lemma StaysAdmitting(t: Txn, row: QueueRow, row': QueueRow)
    requires row.state == Admitting && row.key.kind == JobOp
    requires row' == row || RowMove(t, row, row')
    requires LeavesAlone(t, row.key)
    ensures row'.state == Admitting
  {
  }

  /** An admitted job that is not finished is not torn down by a guarded request. */
  lemma NotTornDown(db: Db, k: Key)
    requires Base(db) && k.kind == JobOp && At(db, k) == Some(Admitting)
    requires k.id in db.jobs && !db.jobs[k.id].status.Terminal()
    ensures !CleanupGuard(db, k)
  {
    var n := RowAt(db, k);
    MatchesAt(db.queue, n, OPEN);
    MatchesAt(db.queue, n, {Queued});
  }

  lemma FailShuts(db: Db, k: Key, now: int)
    requires Base(db) && k.kind == JobOp && At(db, k) == Some(Admitting)
    requires k.id in db.jobs && db.jobs[k.id].status in {Preparing, JobQueued}
    ensures var db' := Next(db, TFailJob(k.id, now));
            At(db', k) == Some(Terminalizing) && k.id in db'.jobs && db'.jobs[k.id].status == Failed
  {
    var n := RowAt(db, k);
    FailsRow(db, n, now);
    AtUpdated(db.queue, n, db.queue[n].(state := Terminalizing));
  }

  lemma FailsRow(db: Db, n: nat, now: int)
    requires UniqueKeys(db.queue) && OneReserved(db.queue) && n < |db.queue|
    requires db.queue[n].state == Admitting && db.queue[n].key.kind == JobOp
    requires var id := db.queue[n].key.id; id in db.jobs && db.jobs[id].status in {Preparing, JobQueued}
    ensures var id := db.queue[n].key.id; var db' := Next(db, TFailJob(id, now));
            && db'.queue == db.queue[n := db.queue[n].(state := Terminalizing)]
            && id in db'.jobs && db'.jobs[id].status == Failed
  {
    assert db.queue[n].key == JobKey(db.queue[n].key.id);
    UpdateOne(db.queue, n, OPEN, Move(Terminalizing));
    FreedRow(db, n, Terminalizing);
  }

  lemma WindowIsLeftAlone(s: Sys, t: Txn)
    requires RunInv(s) && ReadsPreparing(s) && At(s.db, s.disp.k) == Some(Admitting)
    requires Enabled(s, Handle(t)) && Guarded(s, Handle(t)) && !(t.TFailJob? && t.id == s.disp.k.id)
    ensures LeavesAlone(t, s.disp.k)
  {
    var k := s.disp.k;
    assert k == JobKey(k.id);
    Outsiders(s, t);
    NotTornDown(s.db, k);
  }

  lemma AdmittedFits(s: Sys, t: Txn)
    requires RunInv(s) && DispatchFits(s) && ReadsPreparing(s)
    requires Enabled(s, Handle(t)) && Guarded(s, Handle(t)) && Moves(s.db, t, Next(s.db, t))
    ensures DispatchFits(Apply(s, Handle(t)))
  {
    var k := s.disp.k;
    assert k == JobKey(k.id);
    if t.TFailJob? && t.id == k.id {
      FailShuts(s.db, k, t.now);
    } else {
      WindowIsLeftAlone(s, t);
      AdmittedRowKept(s, t, Apply(s, Handle(t)), k);
    }
  }

  lemma HandleFits(s: Sys, t: Txn)
    requires RunInv(s) && DispatchFits(s)
    requires Enabled(s, Handle(t)) && Guarded(s, Handle(t)) && Moves(s.db, t, Next(s.db, t))
    ensures DispatchFits(Apply(s, Handle(t)))
  {
    var s' := Apply(s, Handle(t));
    if ReadsPreparing(s) {
      AdmittedFits(s, t);
    } else {
      assert !t.TRequeue? by { Outsiders(s, t); }
      match s.disp
      case Admitted(k) => OutStays(s.db, t, s'.db, k); StillPast(s, t, k);
      case Chosen(k) => OutStays(s.db, t, s'.db, k);
      case Captured(k, _) => OutStays(s.db, t, s'.db, k);
      case Prepared(k) => OutStays(s.db, t, s'.db, k);
      case _ =>
    }
  }

  lemma StillPast(s: Sys, t: Txn, k: Key)
    requires DispatchRuns(s) && DispatchFits(s) && s.disp == Admitted(k) && !ReadsPreparing(s)
    requires Enabled(s, Handle(t)) && Moves(s.db, t, Next(s.db, t))
    ensures !ReadsPreparing(Apply(s, Handle(t)))
  {
    assert k == JobKey(k.id);
    var n := RowAt(s.db, k);
    PastPreparingStays(s.db, t, Next(s.db, t), k);
  }

  lemma AcquireFits(s: Sys, now: int)
    requires Base(s.db) && JobsFit(s.db) && CreatedFits(s) && Enabled(s, Acquire(now))
    ensures DispatchFits(Apply(s, Acquire(now)))
  {
    var n := NextOperation(s.db);
    if n < |s.db.queue| {
      HeadWaits(s);
      assert RowFits(s.db, s.db.queue[n]);
      AcquiredAt(s.db, now);
    }
  }

  lemma CommitAdvances(s: Sys, a: Action)
    requires FitInv(s) && Enabled(s, a) && Guarded(s, a) && Commits(s, a)
    ensures Advances(s.db, TxnOf(s, a), Apply(s, a).db)
  {
    CommitIsGuarded(s, a);
    TxnAdvances(s.db, TxnOf(s, a));
  }

  lemma DispatchAfterCommit(s: Sys, a: Action)
    requires FitInv(s) && Enabled(s, a) && Guarded(s, a) && Commits(s, a)
    requires Moves(s.db, TxnOf(s, a), Apply(s, a).db)
    ensures DispatchFits(Apply(s, a))
  {
    match a
    case Handle(u) => HandleFits(s, u);
    case Acquire(now) => AcquireFits(s, now);
    case Save => OutStays(s.db, TxnOf(s, a), Apply(s, a).db, s.disp.k);
    case _ =>
  }

  lemma CommitFits(s: Sys, a: Action)
    requires FitInv(s) && Enabled(s, a) && Guarded(s, a) && Commits(s, a)
    ensures JobsFit(Apply(s, a).db)
    ensures DispatchFits(Apply(s, a)) && CreatedFits(Apply(s, a)) && IntentsFit(Apply(s, a))
  {
    var t := TxnOf(s, a);
    CommitAdvances(s, a);
    DispatchAfterCommit(s, a);
    assert t.TRequeue? && t.k.kind == JobOp ==> t.k.id !in s.created by { if a.Handle? { Outsiders(s, t); } }
    CreatedFitsKept(s, t, Apply(s, a));
    IntentsKept(s, t, Apply(s, a));
  }

  lemma QuietFits(s: Sys, a: Action)
    requires FitInv(s) && Enabled(s, a) && !Commits(s, a)
    ensures DispatchFits(Apply(s, a)) && CreatedFits(Apply(s, a)) && IntentsFit(Apply(s, a))
  {
    assert Apply(s, a).db == s.db;
    QuietIntents(s, a);
    QuietCreated(s, a);
  }

  lemma QuietIntents(s: Sys, a: Action)
    requires IntentsFit(s) && CreatedFits(s) && Enabled(s, a) && !Commits(s, a)
    ensures IntentsFit(Apply(s, a))
  {
    var s' := Apply(s, a);
    assert s'.db == s.db;
    forall t | t in s'.intents ensures IntentFits(s', t) {
      if t in s.intents {
        assert IntentFits(s, t);
      } else {
        DecidedFits(s, t);
      }
    }
  }

  lemma QuietCreated(s: Sys, a: Action)
    requires CreatedFits(s) && DispatchFits(s) && Enabled(s, a) && !Commits(s, a)
    ensures CreatedFits(Apply(s, a))
  {
    var s' := Apply(s, a);
    assert s'.db == s.db;
    forall id | id in s'.created ensures Out(s'.db, JobKey(id)) {
      assert id in s.created || (a.Create? && JobKey(id) == s.disp.k);
    }
  }

  /** A report about an existing service is decided on only past the admission. */
  lemma DecidedFits(s: Sys, t: Txn)
    requires CreatedFits(s) && Observed(s, t)
    ensures IntentFits(s, t)
  {
  }

  /** Every action of a guarded run keeps what the coupling rests on. */
  lemma StepFits(s: Sys, a: Action)
    requires FitInv(s) && Enabled(s, a) && Guarded(s, a)
    ensures FitInv(Apply(s, a))
  {
    StepRuns(s, a);
    if Commits(s, a) {
      CommitFits(s, a);
    } else {
      QuietFits(s, a);
    }
  }
}
