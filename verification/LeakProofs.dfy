/** Leak freedom holds after every step of an undisturbed run. */
module LeakProofs {
  import opened Wrappers
  import opened Control
  import opened Transactions
  import opened Lease
  import opened History
  import opened Protocol
  import opened ProtocolProofs
  import opened Runs
  import opened Leaks
  import opened Holding
  import opened Removals

  // ------------------------------------------------- across one transaction

  /** `w'` is `w` after transaction `t`: the store moved, the worker did not. */
  ghost predicate Moved(w: World, t: Txn, w': World) {
    && w' == w.(sys := w'.sys)
    && HoldingInv(w.sys) && HoldingInv(w'.sys)
    && Moves(w.sys.db, t, w'.sys.db)
    && w'.sys.created == w.sys.created
  }

  /** A completed cleanup concerns a stopped operation that left nothing behind. */
  ghost predicate CompletesClean(w: World, t: Txn) {
    t.TComplete? ==>
      && t.k !in w.alive
      && (t.k in w.tainted && Held(At(w.sys.db, t.k)) ==> w.inventory <= w.initial)
  }

  lemma TaintedStays(w: World, t: Txn, w': World, k: Key)
    requires Moved(w, t, w') && Tainted(w, k)
    ensures Tainted(w', k) && !Waiting(At(w'.sys.db, k))
  {
    if k.kind == BuildOp {
      PastAdmissionStays(w.sys.db, t, w'.sys.db, k);
    } else {
      assert k == JobKey(k.id) && CreatedOut(w'.sys);
    }
  }

  lemma HeldStays(w: World, t: Txn, w': World, k: Key)
    requires Moved(w, t, w') && Tainted(w, k) && Held(At(w.sys.db, k)) && t != TComplete(k)
    ensures Held(At(w'.sys.db, k))
  {
    TaintedStays(w, t, w', k);
    assert KeyMove(t, k, At(w.sys.db, k), At(w'.sys.db, k)) by { ShapeMovesKey(w.sys.db, t, w'.sys.db, k); }
    HeldMove(t, k, At(w.sys.db, k), At(w'.sys.db, k));
  }

  lemma ReleasedStays(db: Db, t: Txn, db': Db, k: Key)
    requires Moves(db, t, db') && At(db, k) == Some(Released)
    ensures At(db', k) == Some(Released)
  {
    assert KeyMove(t, k, At(db, k), At(db', k)) by { ShapeMovesKey(db, t, db', k); }
    ReleasedMove(t, k, At(db', k));
  }

  lemma ReleasedMove(t: Txn, k: Key, s: Option<QueueState>)
    requires KeyMove(t, k, Some(Released), s)
    ensures s == Some(Released)
  {
  }

  lemma HeldMove(t: Txn, k: Key, s: Option<QueueState>, s': Option<QueueState>)
    requires KeyMove(t, k, s, s') && Held(s) && !Waiting(s') && t != TComplete(k)
    ensures Held(s')
  {
  }

  lemma RuntimeKept(w: World, t: Txn, w': World)
    requires RuntimeInv(w) && Moved(w, t, w') && CompletesClean(w, t)
    requires Acquires(w'.sys.disp) ==>
               forall k :: k in w.tainted ==> At(w'.sys.db, k) == Some(Released)
    ensures RuntimeInv(w')
  {
    forall k | k in w'.tainted ensures Tainted(w', k) { TaintedStays(w, t, w', k); }
    forall k | k in w'.alive ensures Held(At(w'.sys.db, k)) { HeldStays(w, t, w', k); }
  }

  lemma StockKept(w: World, t: Txn, w': World)
    requires RuntimeInv(w) && StockInv(w) && Moved(w, t, w') && CompletesClean(w, t)
    ensures StockInv(w')
  {
    if !(w.inventory <= w.initial) {
      var k :| k in w.tainted && Held(At(w.sys.db, k));
      HeldStays(w, t, w', k);
    }
  }

  lemma CleanerKept(w: World, t: Txn, w': World, cl: Cleaner)
    requires Moved(w, t, w') && CleanerInv(w, cl)
    ensures CleanerInv(w', cl)
  {
    assert KeyMove(t, cl.k, At(w.sys.db, cl.k), At(w'.sys.db, cl.k)) by { ShapeMovesKey(w.sys.db, t, w'.sys.db, cl.k); }
    ShutMove(t, cl.k, At(w.sys.db, cl.k), At(w'.sys.db, cl.k));
  }

  lemma BaselinesKept(w: World, t: Txn, w': World)
    requires BaselineInv(w) && Moved(w, t, w') && !t.TSaveBaseline?
    ensures forall k :: k in w'.sys.db.baselines ==> w'.sys.db.baselines[k] <= w'.initial
  {
  }

  /** Everything about the worker across a transaction that saves no baseline
      and whose dispatcher does not move into a new preparation. */
  lemma TxnKeepsWorld(w: World, t: Txn, w': World)
    requires WorldInv(w) && Moved(w, t, w') && CompletesClean(w, t) && !t.TSaveBaseline?
    requires w'.sys.disp == w.sys.disp || w'.sys.disp == Idle || w'.sys.disp.Failing?
    ensures WorldInv(w')
  {
    BaselinesKept(w, t, w');
    SameBaselines(w.sys.db, t, w'.sys.db);
    if Acquires(w'.sys.disp) {
      forall k | k in w.tainted ensures At(w'.sys.db, k) == Some(Released) {
        ReleasedStays(w.sys.db, t, w'.sys.db, k);
      }
    }
    RuntimeKept(w, t, w');
    StockKept(w, t, w');
    forall c | c in w'.cleaners ensures CleanerInv(w', w'.cleaners[c]) { CleanerKept(w, t, w', w.cleaners[c]); }
  }

  // ---------------------------------------------------- the dispatcher's steps

  lemma HandleKeepsWorld(w: World, t: Txn)
    requires WorldInv(w) && Can(w, Control(Handle(t))) && Undisturbed(w.sys, Handle(t))
    ensures WorldInv(Do(w, Control(Handle(t))))
  {
    StepHolds(w.sys, Handle(t));
    CommitMoves(w.sys, Handle(t));
    assert !t.TSaveBaseline? by { Outsiders(w.sys, t); }
    TxnKeepsWorld(w, t, Do(w, Control(Handle(t))));
  }

  /** At an admission nothing is reserved, so every operation that ever ran is
      released, and stays released while the next one is prepared. */
  lemma AcquireKeepsWorld(w: World, now: int)
    requires WorldInv(w) && Can(w, Control(Acquire(now)))
    ensures WorldInv(Do(w, Control(Acquire(now))))
  {
    var w' := Do(w, Control(Acquire(now)));
    StepHolds(w.sys, Acquire(now));
    if NextOperation(w.sys.db) < |w.sys.db.queue| {
      var t := TAcquire(now);
      CommitMoves(w.sys, Acquire(now));
      BaselinesKept(w, t, w');
      SameBaselines(w.sys.db, t, w'.sys.db);
      forall k | k in w.tainted ensures At(w'.sys.db, k) == Some(Released) {
        TaintedIsReleased(w, k);
        ReleasedStays(w.sys.db, t, w'.sys.db, k);
      }
      RuntimeKept(w, t, w');
      StockKept(w, t, w');
      forall c | c in w'.cleaners ensures CleanerInv(w', w'.cleaners[c]) { CleanerKept(w, t, w', w.cleaners[c]); }
    }
  }

  lemma TaintedIsReleased(w: World, k: Key)
    requires HoldingInv(w.sys) && Tainted(w, k) && !AnyIn(w.sys.db.queue, RESERVED)
    ensures At(w.sys.db, k) == Some(Released)
  {
  }

  /** `w'` has the store, the logs and the worker of `w`. */
  ghost predicate SameStore(w: World, w': World) {
    w' == w.(sys := w'.sys) && w'.sys.db == w.sys.db && forall id :: id in w.sys.created ==> id in w'.sys.created
  }

  lemma SameStoreKeeps(w: World, w': World)
    requires RuntimeInv(w) && StockInv(w) && CleanersInv(w) && SameStore(w, w')
    requires Acquires(w'.sys.disp) ==> Acquires(w.sys.disp)
    ensures RuntimeInv(w') && StockInv(w') && CleanersInv(w')
  {
  }

  /** While an operation is prepared, the inventory is clean. */
  lemma CleanAtCapture(w: World)
    requires RuntimeInv(w) && StockInv(w) && w.sys.disp.Chosen?
    ensures w.inventory <= w.initial
  {
  }

  /** No step of the store: only the dispatcher's place changes. */
  lemma QuietKeepsWorld(w: World, a: Action)
    requires WorldInv(w) && Can(w, Control(a)) && (a.List? || a.Decide? || a.Read? || a.Capture? || a.Abort?)
    ensures WorldInv(Do(w, Control(a)))
  {
    var w' := Do(w, Control(a));
    assert HoldingInv(w'.sys) by { StepHolds(w.sys, a); }
    assert SameStore(w, w');
    SameStoreKeeps(w, w');
    assert BaselineInv(w') by { if a.Capture? { CleanAtCapture(w); } }
  }

  lemma SaveKeepsWorld(w: World)
    requires WorldInv(w) && Can(w, Control(Save))
    ensures WorldInv(Do(w, Control(Save)))
  {
    var w' := Do(w, Control(Save));
    var t := TSaveBaseline(w.sys.disp.k, w.sys.disp.inventory);
    StepHolds(w.sys, Save);
    CommitMoves(w.sys, Save);
    SaveOnlyStores(w.sys.db, t.k, t.resources);
    forall k | k in w.tainted ensures At(w'.sys.db, k) == Some(Released) {
      assert At(w.sys.db, k) == Some(Released);
    }
    RuntimeKept(w, t, w');
    StockKept(w, t, w');
    forall c | c in w'.cleaners ensures CleanerInv(w', w'.cleaners[c]) { CleanerKept(w, t, w', w.cleaners[c]); }
  }

  lemma BackOutKeepsWorld(w: World, a: Action)
    requires WorldInv(w) && Can(w, Control(a)) && (a.PrepareFails? || a.Fail? || a.Request?)
    ensures WorldInv(Do(w, Control(a)))
  {
    var w' := Do(w, Control(a));
    assert HoldingInv(w'.sys) by { StepHolds(w.sys, a); }
    var k := w.sys.disp.k;
    if a.PrepareFails? && a.permanent && k.kind == JobOp {
      assert w'.sys == w.sys.(disp := Refused(k));
      SameStoreKeeps(w, w');
      assert BaselineInv(w');
    } else {
      var t := if a.PrepareFails? then TRequeue(k) else if a.Fail? then TFailJob(k.id, a.now) else TBeginCleanup(k);
      CommitMoves(w.sys, a);
      DispatchedKeeps(w, t, w');
    }
  }

  /** The dispatcher commits a transaction and is done with its operation. */
  lemma DispatchedKeeps(w: World, t: Txn, w': World)
    requires WorldInv(w) && w' == w.(sys := w'.sys) && HoldingInv(w'.sys) && w'.sys.created == w.sys.created
    requires Moves(w.sys.db, t, w'.sys.db) && !t.TSaveBaseline? && !t.TComplete?
    requires w'.sys.disp == Idle || w'.sys.disp.Failing?
    ensures WorldInv(w')
  {
    TxnKeepsWorld(w, t, w');
  }

  // ------------------------------------------------------- a runtime starts

  /** An operation past its preparation may come to life while it holds the worker. */
  lemma LaunchKeeps(w: World, k: Key)
    requires WorldInv(w) && Tainted(w, k) && Held(At(w.sys.db, k)) && !Shut(At(w.sys.db, k))
    requires !Acquires(w.sys.disp)
    ensures WorldInv(w.(alive := w.alive + {k}, tainted := w.tainted + {k}))
  {
    var w' := w.(alive := w.alive + {k}, tainted := w.tainted + {k});
    assert RuntimeInv(w') by {
      forall j | j in w'.tainted ensures Tainted(w', j) { assert Tainted(w, j); }
    }
    forall c | c in w'.cleaners ensures CleanerInv(w', w'.cleaners[c]) { CleanerUnlaunched(w, k, w.cleaners[c]); }
    assert StockInv(w') by { assert k in w'.tainted && Held(At(w'.sys.db, k)); }
  }

  lemma CleanerUnlaunched(w: World, k: Key, cl: Cleaner)
    requires CleanerInv(w, cl) && !Shut(At(w.sys.db, k))
    ensures CleanerInv(w.(alive := w.alive + {k}, tainted := w.tainted + {k}), cl)
  {
  }

  lemma CreateKeepsWorld(w: World, outcome: Outcome)
    requires WorldInv(w) && Can(w, Control(Create(outcome)))
    ensures WorldInv(Do(w, Control(Create(outcome))))
  {
    var k := w.sys.disp.k;
    var w1 := w.(sys := Apply(w.sys, Create(outcome)));
    CreateLogs(w, outcome);
    assert Tainted(w1, k) by { assert w1.sys.created[|w.sys.created|] == k.id; }
    LaunchKeeps(w1, k);
  }

  lemma CreateLogs(w: World, outcome: Outcome)
    requires WorldInv(w) && Enabled(w.sys, Create(outcome))
    ensures WorldInv(w.(sys := Apply(w.sys, Create(outcome))))
  {
    var w1 := w.(sys := Apply(w.sys, Create(outcome)));
    assert HoldingInv(w1.sys) by { StepHolds(w.sys, Create(outcome)); }
    assert SameStore(w, w1);
    SameStoreKeeps(w, w1);
  }

  lemma ActivateKeepsWorld(w: World)
    requires WorldInv(w) && Can(w, Control(Activate))
    ensures WorldInv(Do(w, Control(Activate)))
  {
    ActivateCommits(w);
    if Launches(w.sys, Activate) {
      Activated(w.sys);
      LaunchKeeps(w.(sys := Apply(w.sys, Activate)), w.sys.disp.k);
    }
  }

  lemma ActivateCommits(w: World)
    requires WorldInv(w) && Enabled(w.sys, Activate)
    ensures WorldInv(w.(sys := Apply(w.sys, Activate)))
  {
    var w1 := w.(sys := Apply(w.sys, Activate));
    var t := TActivate(w.sys.disp.k);
    assert HoldingInv(w1.sys) by { StepHolds(w.sys, Activate); }
    CommitMoves(w.sys, Activate);
    DispatchedKeeps(w, t, w1);
  }

  lemma Activated(s: Sys)
    requires UniqueKeys(s.db.queue) && s.disp.Prepared? && Enabled(s, Activate) && Run(s.db, TActivate(s.disp.k)).Ok?
    ensures var s' := Apply(s, Activate);
            s'.disp == Idle && s'.db.baselines == s.db.baselines && At(s'.db, s.disp.k) == Some(Active)
  {
  }

  // ------------------------------------------------------------- the cleaners

  lemma OneHeld(db: Db, j: Key, k: Key)
    requires Base(db) && Held(At(db, j)) && Held(At(db, k))
    ensures j == k
  {
  }

  lemma WithCleaner(w: World, c: nat, cl: Cleaner)
    requires WorldInv(w) && CleanerInv(w, cl)
    ensures WorldInv(w.(cleaners := w.cleaners[c := cl]))
  {
    var w' := w.(cleaners := w.cleaners[c := cl]);
    assert RuntimeInv(w') by {
      forall j | j in w'.tainted ensures Tainted(w', j) { assert Tainted(w, j); }
    }
    forall d | d in w'.cleaners ensures CleanerInv(w', w'.cleaners[d]) { assert CleanerInv(w, w'.cleaners[d]); }
    assert StockInv(w') && BaselineInv(w');
  }

  lemma WithoutCleaners(w: World, cs: set<nat>)
    requires WorldInv(w)
    ensures WorldInv(w.(cleaners := w.cleaners - cs))
  {
  }

  /** The store's part of a claim or a completion. */
  lemma CleanerTxnKeeps(w: World, t: Txn)
    requires WorldInv(w) && (t.TClaim? || t.TComplete?) && CompletesClean(w, t)
    ensures WorldInv(w.(sys := Apply(w.sys, Handle(t)))) && Moves(w.sys.db, t, Next(w.sys.db, t))
  {
    StepHolds(w.sys, Handle(t));
    CommitMoves(w.sys, Handle(t));
    TxnKeepsWorld(w, t, w.(sys := Apply(w.sys, Handle(t))));
  }

  lemma ClaimedIsShut(db: Db, n: nat)
    requires Moves(db, TClaim, Next(db, TClaim)) && n < |db.queue| && db.queue[n].state in TEARDOWN
    ensures Shut(At(Next(db, TClaim), db.queue[n].key))
  {
  }

  lemma ClaimKeepsWorld(w: World, c: nat)
    requires WorldInv(w) && Can(w, Claim(c))
    ensures WorldInv(Do(w, Claim(c)))
  {
    var n := Oldest(w.sys.db.queue, TEARDOWN);
    CleanerTxnKeeps(w, TClaim);
    ClaimedIsShut(w.sys.db, n);
    WithCleaner(w.(sys := Apply(w.sys, Handle(TClaim))), c, Claimed(w.sys.db.queue[n].key));
  }

  lemma ScanKeepsWorld(w: World, c: nat)
    requires WorldInv(w) && Can(w, Scan(c))
    ensures WorldInv(Do(w, Scan(c)))
  {
    var k := w.cleaners[c].k;
    assert CleanerInv(w, w.cleaners[c]);
    if k in w.sys.db.baselines {
      WithCleaner(w, c, Scanned(k, w.inventory - w.sys.db.baselines[k]));
    } else {
      assert k in w.tainted ==> Tainted(w, k);
      WithCleaner(w, c, Verified(k));
    }
  }

  lemma VerifyKeepsWorld(w: World, c: nat)
    requires WorldInv(w) && Can(w, Verify(c))
    ensures WorldInv(Do(w, Verify(c)))
  {
    var k := w.cleaners[c].k;
    assert CleanerInv(w, w.cleaners[c]) && w.sys.db.baselines[k] <= w.initial;
    WithCleaner(w, c, Verified(k));
  }

  lemma CompleteKeepsWorld(w: World, c: nat)
    requires WorldInv(w) && Can(w, Complete(c))
    ensures WorldInv(Do(w, Complete(c)))
  {
    var t := TComplete(w.cleaners[c].k);
    assert CleanerInv(w, w.cleaners[c]);
    CleanerTxnKeeps(w, t);
    WithoutCleaners(w.(sys := Apply(w.sys, Handle(t))), {c});
  }

  // ------------------------------------------------------------- the resources

  /** The inventory changes; the store does not. */
  lemma StockChanges(w: World, w': World)
    requires WorldInv(w) && w' == w.(inventory := w'.inventory, gone := w'.gone)
    requires StockInv(w')
    requires forall c :: c in w.cleaners && w.cleaners[c].Verified? ==> CleanerInv(w', w.cleaners[c])
    ensures WorldInv(w')
  {
  }

  /** Losing resources does no harm. */
  lemma ShrinkKeepsWorld(w: World, w': World)
    requires WorldInv(w) && w' == w.(inventory := w'.inventory, gone := w'.gone) && w'.inventory <= w.inventory
    ensures WorldInv(w')
  {
    forall d | d in w.cleaners && w.cleaners[d].Verified? ensures CleanerInv(w', w.cleaners[d]) { assert CleanerInv(w, w.cleaners[d]); }
    StockChanges(w, w');
  }

  lemma AddKeepsWorld(w: World, k: Key, r: Resource)
    requires WorldInv(w) && Can(w, Add(k, r))
    ensures WorldInv(Do(w, Add(k, r)))
  {
    var w' := Do(w, Add(k, r));
    assert k in w'.tainted && Held(At(w'.sys.db, k));
    forall d | d in w.cleaners && w.cleaners[d].Verified? ensures CleanerInv(w', w.cleaners[d]) {
      var j := w.cleaners[d].k;
      assert CleanerInv(w, w.cleaners[d]);
      if Held(At(w.sys.db, j)) { OneHeld(w.sys.db, j, k); }
    }
    StockChanges(w, w');
  }

  lemma StopKeepsWorld(w: World, k: Key)
    requires WorldInv(w)
    ensures WorldInv(Do(w, Stop(k)))
  {
    var w' := Do(w, Stop(k));
    assert RuntimeInv(w') by {
      forall j | j in w'.tainted ensures Tainted(w', j) { assert Tainted(w, j); }
    }
    forall c | c in w'.cleaners ensures CleanerInv(w', w'.cleaners[c]) { assert CleanerInv(w, w.cleaners[c]); }
    assert StockInv(w') && BaselineInv(w');
  }

  lemma RestartKeepsWorld(w: World)
    requires WorldInv(w)
    ensures WorldInv(Do(w, Restart))
  {
    var w1 := w.(sys := Apply(w.sys, Crash));
    StepHolds(w.sys, Crash);
    assert SameStore(w, w1);
    SameStoreKeeps(w, w1);
    WithoutCleaners(w1, w1.cleaners.Keys);
    assert w1.cleaners - w1.cleaners.Keys == map[];
  }

  // -------------------------------------------------------------- whole runs

  lemma ControlKeepsWorld(w: World, a: Action)
    requires WorldInv(w) && Can(w, Control(a)) && Undisturbed(w.sys, a)
    ensures WorldInv(Do(w, Control(a)))
  {
    match a
    case Handle(t) => HandleKeepsWorld(w, t);
    case Acquire(now) => AcquireKeepsWorld(w, now);
    case Save => SaveKeepsWorld(w);
    case Create(outcome) => CreateKeepsWorld(w, outcome);
    case Activate => ActivateKeepsWorld(w);
    case List(id) => QuietKeepsWorld(w, a);
    case Decide(t) => QuietKeepsWorld(w, a);
    case Read => QuietKeepsWorld(w, a);
    case Capture(inventory) => QuietKeepsWorld(w, a);
    case Abort => QuietKeepsWorld(w, a);
    case _ => BackOutKeepsWorld(w, a);
  }

  lemma StepKeepsWorld(w: World, st: Step)
    requires WorldInv(w) && Can(w, st) && (st.Control? ==> Undisturbed(w.sys, st.a))
    ensures WorldInv(Do(w, st))
  {
    match st
    case Control(a) => ControlKeepsWorld(w, a);
    case Claim(c) => ClaimKeepsWorld(w, c);
    case Scan(c) => ScanKeepsWorld(w, c);
    case Remove(c, r) => ShrinkKeepsWorld(w, Do(w, st));
    case Verify(c) => VerifyKeepsWorld(w, c);
    case GiveUp(c) => WithoutCleaners(w, {c});
    case Complete(c) => CompleteKeepsWorld(w, c);
    case Add(k, r) => AddKeepsWorld(w, k, r);
    case Vanish(r) => ShrinkKeepsWorld(w, Do(w, st));
    case Stop(k) => StopKeepsWorld(w, k);
    case Restart => RestartKeepsWorld(w);
  }

  lemma {:induction false} RunKeepsWorld(ws: seq<World>, steps: seq<Step>, i: nat)
    requires IsUndisturbedRun(ws, steps) && i < |ws|
    ensures WorldInv(ws[i]) && ws[i].initial == ws[0].initial
  {
    if i > 0 {
      RunKeepsWorld(ws, steps, i - 1);
      StepKeepsWorld(ws[i - 1], steps[i - 1]);
      assert ws[i] == Do(ws[i - 1], steps[i - 1]);
    }
  }

  /** Whenever no operation holds the worker, nothing is on it that was not there
      at the start: no operation leaves anything behind. */
  lemma LeakFreedom(ws: seq<World>, steps: seq<Step>, i: nat)
    requires IsUndisturbedRun(ws, steps) && i < |ws|
    ensures !AnyIn(ws[i].sys.db.queue, RESERVED) ==> ws[i].inventory <= ws[0].inventory
  {
    var w := ws[i];
    RunKeepsWorld(ws, steps, i);
    if !AnyIn(w.sys.db.queue, RESERVED) {
      forall k | k in w.tainted ensures !Held(At(w.sys.db, k)) {
        assert Tainted(w, k);
        TaintedIsReleased(w, k);
      }
    }
  }
}
