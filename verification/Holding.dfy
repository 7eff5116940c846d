/** What leak freedom rests on in the store holds after every undisturbed action:
    the job the dispatcher is about to create keeps the worker. */
module Holding {
  import opened Wrappers
  import opened Control
  import opened Transactions
  import opened Lease
  import opened History
  import opened Exact
  import opened Protocol
  import opened ProtocolProofs
  import opened Leaks

  // ------------------------------------------------- across one transaction

  lemma IntentsPastKept(s: Sys, t: Txn, s': Sys)
    requires IntentsPast(s) && Moves(s.db, t, s'.db) && s'.created == s.created && s'.intents <= s.intents
    ensures IntentsPast(s')
  {
    forall u | u in s'.intents ensures IntentPast(s', u) {
      assert IntentPast(s, u);
      if u.TSync? && PastAdmission(At(s.db, JobKey(u.id))) { PastAdmissionStays(s.db, t, s'.db, JobKey(u.id)); }
    }
  }

  lemma ExecutingKept(db: Db, t: Txn, db': Db, k: Key)
    requires Shape(db, t, db') && !t.TAcquire? && OnlyExecuting(db, k)
    ensures OnlyExecuting(db', k)
  {
  }

  lemma CancelKeepsRow(db: Db, k: Key, now: int)
    requires Base(db) && k == JobKey(k.id) && At(db, k) == Some(Admitting)
    ensures At(Next(db, TCancelJob(k.id, now)), k) == Some(Admitting)
  {
    var n := RowAt(db, k);
    MatchesAt(db.queue, n, {Queued});
    UpdateNone(db.queue, k, {Queued}, Move(Released));
  }

  lemma MatchIsAt(db: Db, k: Key)
    requires UniqueKeys(db.queue) && Matches(db.queue, k, {Admitting})
    ensures At(db, k) == Some(Admitting)
  {
    var n := Find(db, k, {Admitting});
    AtRow(db.queue, n);
  }

  /** A job that is not read yet stays out of the queue while it is preparing, and
      keeps the worker if it is cancelled. */
  lemma WindowHolds(s: Sys, t: Txn)
    requires RunInv(s) && ReadsPreparing(s) && Unstarted(At(s.db, s.disp.k)) && s.disp.k.id !in s.created
    requires Enabled(s, Handle(t)) && Undisturbed(s, Handle(t)) && Moves(s.db, t, Next(s.db, t))
    ensures var s' := Apply(s, Handle(t));
            if ReadsPreparing(s') then Unstarted(At(s'.db, s.disp.k)) else At(s'.db, s.disp.k) == Some(Admitting)
  {
    var k := s.disp.k;
    assert k == JobKey(k.id);
    Outsiders(s, t);
    if t.TQueueJob? && t.id == k.id {
      assert Next(s.db, t) == s.db;
    } else if t.TCancelJob? && t.id == k.id {
      MatchIsAt(s.db, k);
      CancelKeepsRow(s.db, k, t.now);
    } else {
      SameJob(s.db, t, Next(s.db, t), k.id);
      StaysUnstarted(s.db, t, Next(s.db, t), k);
    }
  }

  lemma StaysUnstarted(db: Db, t: Txn, db': Db, k: Key)
    requires Moves(db, t, db') && k.kind == JobOp && Unstarted(At(db, k))
    requires !t.TRequeue? && t != TActivate(k) && !(t.TQueueJob? && t.id == k.id)
    ensures Unstarted(At(db', k))
  {
    assert KeyMove(t, k, At(db, k), At(db', k)) by { ShapeMovesKey(db, t, db', k); }
    UnstartedMove(t, k, At(db, k), At(db', k));
  }

  lemma UnstartedMove(t: Txn, k: Key, s: Option<QueueState>, s': Option<QueueState>)
    requires KeyMove(t, k, s, s') && k.kind == JobOp && Unstarted(s)
    requires !t.TRequeue? && t != TActivate(k) && !(t.TQueueJob? && t.id == k.id)
    ensures Unstarted(s')
  {
  }

  /** The transactions that can take an admitted job's row away from it. */
  predicate Removes(t: Txn, k: Key) {
    || t == TRequeue(k) || t == TActivate(k) || t == TBeginCleanup(k) || t.TEmergency?
    || ((t.TQueueJob? || t.TFailJob? || t.TSync?) && t.id == k.id)
  }

  lemma RowHeld(t: Txn, row: QueueRow, row': QueueRow)
    requires row.state == Admitting && row.key.kind == JobOp && !Removes(t, row.key)
    requires row' == row || RowMove(t, row, row')
    ensures row'.state == Admitting
  {
  }

  /** What callers other than the dispatcher can send about a job not created yet. */
  predicate Outside(s: Sys, t: Txn)
    requires Acquires(s.disp)
  {
    && !t.TRequeue? && !t.TEmergency? && !(t.TActivate? && t.k == s.disp.k)
    && (t.TSync? ==> IntentPast(s, t))
  }

  lemma IsOutside(s: Sys, t: Txn)
    requires RunInv(s) && IntentsPast(s) && Acquires(s.disp) && s.disp.k.id !in s.created && Enabled(s, Handle(t))
    ensures Outside(s, t)
  {
    Outsiders(s, t);
    assert t in s.intents ==> IntentPast(s, t);
  }

  /** Of those that would take the row away, an undisturbing one is refused. */
  lemma NobodyRemoves(s: Sys, t: Txn)
    requires AcquiredFresh(s) && HoldInv(s) && Holds(s) && PastPreparing(s.db, s.disp.k) && Outside(s, t) && !Disturbs(s, t)
    ensures Removes(t, s.disp.k) ==> Refused(s.db, t, s.disp.k)
  {
    assert s.disp.k == JobKey(s.disp.k.id);
  }

  /** A start, or a failure of a job that is neither preparing nor waiting to run. */
  predicate Refused(db: Db, t: Txn, k: Key) {
    && PastPreparing(db, k) && k.kind == JobOp
    && ((t.TQueueJob? && t.id == k.id) || (t.TFailJob? && t.id == k.id && db.jobs[k.id].status != JobQueued))
  }

  lemma RefusedKeeps(db: Db, t: Txn, k: Key)
    requires Refused(db, t, k)
    ensures Next(db, t) == db
  {
  }

  lemma StillHeld(s: Sys, t: Txn)
    requires Base(s.db) && AcquiredFresh(s) && HoldInv(s) && Holds(s) && PastPreparing(s.db, s.disp.k) && Outside(s, t) && !Disturbs(s, t)
    requires Moves(s.db, t, Next(s.db, t))
    ensures At(Next(s.db, t), s.disp.k) == Some(Admitting)
  {
    var k := s.disp.k;
    var db' := Next(s.db, t);
    NobodyRemoves(s, t);
    if Removes(t, k) {
      RefusedKeeps(s.db, t, k);
    } else {
      var n := RowAt(s.db, k);
      RowAfter(s.db, t, db', n);
      RowHeld(t, s.db.queue[n], db'.queue[n]);
      AtRow(db'.queue, n);
    }
  }

  lemma HandleHolds(s: Sys, t: Txn)
    requires RunInv(s) && AcquiredFresh(s) && HoldInv(s) && IntentsPast(s)
    requires Enabled(s, Handle(t)) && Undisturbed(s, Handle(t)) && Moves(s.db, t, Next(s.db, t))
    ensures HoldInv(Apply(s, Handle(t)))
  {
    if Acquires(s.disp) {
      assert !t.TAcquire? by { Outsiders(s, t); }
      ExecutingKept(s.db, t, Next(s.db, t), s.disp.k);
      if Holds(s) {
        UnreadIsPast(s);
        assert Outside(s, t) by { IsOutside(s, t); }
        StillHeld(s, t);
        PastPreparingStays(s.db, t, Next(s.db, t), s.disp.k);
      } else if ReadsPreparing(s) {
        WindowHolds(s, t);
      }
    }
  }

  lemma AcquireExecutes(db: Db, now: int)
    requires Base(db) && NextOperation(db) < |db.queue|
    ensures OnlyExecuting(Next(db, TAcquire(now)), db.queue[NextOperation(db)].key)
  {
    AcquireTakesNext(db, now);
    forall i | 0 <= i < |db.queue| ensures db.queue[i].state !in EXECUTING { assert db.queue[i].state !in RESERVED; }
  }

  lemma AcquireHolds(s: Sys, now: int)
    requires Base(s.db) && s.disp.Idle?
    ensures HoldInv(Apply(s, Acquire(now)))
  {
    if NextOperation(s.db) < |s.db.queue| {
      HeadWaits(s);
      AcquiredAt(s.db, now);
      AcquireExecutes(s.db, now);
    }
  }

  lemma SaveHolds(s: Sys)
    requires HoldInv(s) && s.disp.Captured?
    ensures HoldInv(Apply(s, Save))
  {
  }

  // ------------------------------------------------------------- by action

  /** The dispatcher is done with its operation. */
  lemma DoneHolds(s: Sys, a: Action)
    requires Enabled(s, a) && Commits(s, a) && !a.Handle? && !a.Acquire? && !a.Save?
    ensures HoldInv(Apply(s, a))
  {
  }

  lemma CommitHoldInv(s: Sys, a: Action)
    requires HoldingInv(s) && Enabled(s, a) && Undisturbed(s, a) && Commits(s, a)
    requires Moves(s.db, TxnOf(s, a), Apply(s, a).db)
    ensures HoldInv(Apply(s, a))
  {
    match a
    case Handle(u) => HandleHolds(s, u);
    case Acquire(now) => AcquireHolds(s, now);
    case Save => SaveHolds(s);
    case _ => DoneHolds(s, a);
  }

  lemma CommitHolds(s: Sys, a: Action)
    requires HoldingInv(s) && Enabled(s, a) && Undisturbed(s, a) && Commits(s, a)
    ensures HoldInv(Apply(s, a)) && IntentsPast(Apply(s, a))
  {
    CommitMoves(s, a);
    CommitHoldInv(s, a);
    IntentsPastKept(s, TxnOf(s, a), Apply(s, a));
  }

  lemma QuietHolds(s: Sys, a: Action)
    requires HoldInv(s) && IntentsPast(s) && Enabled(s, a) && !Commits(s, a)
    ensures HoldInv(Apply(s, a)) && IntentsPast(Apply(s, a))
  {
    var s' := Apply(s, a);
    QuietHoldInv(s, a);
    forall t | t in s'.intents ensures IntentPast(s', t) { assert t in s.intents ==> IntentPast(s, t); }
  }

  lemma QuietHoldInv(s: Sys, a: Action)
    requires HoldInv(s) && Enabled(s, a) && !Commits(s, a)
    ensures HoldInv(Apply(s, a)) && Apply(s, a).db == s.db
  {
  }

  lemma UndisturbedIsUnrushed(s: Sys, a: Action)
    requires DispatchRuns(s) && Undisturbed(s, a)
    ensures Unrushed(s, a)
  {
  }

  /** Every undisturbed action keeps it. */
  lemma StepHolds(s: Sys, a: Action)
    requires HoldingInv(s) && Enabled(s, a) && Undisturbed(s, a)
    ensures HoldingInv(Apply(s, a))
  {
    UndisturbedIsUnrushed(s, a);
    StepOnce(s, a);
    if Commits(s, a) {
      CommitHolds(s, a);
    } else {
      QuietHolds(s, a);
    }
  }
}
