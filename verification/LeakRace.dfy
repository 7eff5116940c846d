/** `Undisturbed` is exact: in every state of a run, the calls it forbids about a
    job that is acquired and not created yet, and nothing else from outside the
    dispatcher, let an undisturbed continuation leave something behind. */
module LeakRace {
  import opened Wrappers
  import opened Control
  import opened Transactions
  import opened Lease
  import opened History
  import opened Exact
  import opened Protocol
  import opened ProtocolProofs
  import opened Races
  import opened Leaks
  import opened Holding
  import opened LeakProofs

  // ---------------------------------------------------- undisturbed continuations

  predicate Quiet(w: World, st: Step) {
    Can(w, st) && (st.Control? ==> Undisturbed(w.sys, st.a))
  }

  ghost predicate Goes(w: World, steps: seq<Step>, w': World)
    decreases |steps|
  {
    if steps == [] then w' == w
    else Quiet(w, steps[0]) && Goes(Do(w, steps[0]), steps[1..], w')
  }

  lemma {:induction false} GoesOn(w: World, steps: seq<Step>, w': World, st: Step)
    requires Goes(w, steps, w') && Quiet(w', st)
    ensures Goes(w, steps + [st], Do(w', st))
    decreases |steps|
  {
    if steps == [] {
      assert steps + [st] == [st] && [st][1..] == [];
    } else {
      GoesOn(Do(w, steps[0]), steps[1..], w', st);
      assert (steps + [st])[1..] == steps[1..] + [st];
    }
  }

  lemma {:induction false} GoesKeeps(w: World, steps: seq<Step>, w': World)
    requires WorldInv(w) && Goes(w, steps, w')
    ensures WorldInv(w')
    decreases |steps|
  {
    if steps != [] {
      StepKeepsWorld(w, steps[0]);
      GoesKeeps(Do(w, steps[0]), steps[1..], w');
    }
  }

  /** What leak freedom promises of a state. */
  predicate Tight(w: World) {
    !AnyIn(w.sys.db.queue, RESERVED) ==> w.inventory <= w.initial
  }

  /** Every undisturbed continuation of `w` is tight. */
  ghost predicate StaysTight(w: World) {
    forall steps, w' :: Goes(w, steps, w') ==> Tight(w')
  }

  lemma WorldIsTight(w: World)
    requires WorldInv(w)
    ensures Tight(w)
  {
    if !AnyIn(w.sys.db.queue, RESERVED) {
      forall k | k in w.tainted ensures !Held(At(w.sys.db, k)) {
        assert Tainted(w, k);
        TaintedIsReleased(w, k);
      }
    }
  }

  // ----------------------------------------------------- the job is taken away

  /** A job past its preparation whose row does not execute. */
  predicate Lacks(db: Db, k: Key) {
    PastPreparing(db, k) && At(db, k) != Some(Admitting) && At(db, k) != Some(Active)
  }

  lemma StartTakes(db: Db, k: Key, digest: string)
    requires Base(db) && k == JobKey(k.id) && At(db, k) == Some(Admitting)
    requires k.id in db.jobs && db.jobs[k.id].status == Preparing
    ensures Lacks(Next(db, TQueueJob(k.id, digest)), k)
  {
    var n := RowAt(db, k);
    StartEffect(db, n, digest);
    AtRow(Next(db, TQueueJob(k.id, digest)).queue, n);
  }

  lemma FinishTakes(db: Db, k: Key, t: Txn)
    requires Base(db) && k == JobKey(k.id) && Shut(At(db, k))
    requires k.id in db.jobs && db.jobs[k.id].status == Preparing && Finishes(t, k.id)
    ensures Lacks(Next(db, t), k)
  {
    assert PastPreparing(Next(db, t), k) by { FinishEffect(db, k, t); }
    assert Shut(At(Next(db, t), k)) by {
      TxnAlways(db, t);
      ShutStays(db, t, Next(db, t), k);
    }
  }

  /** A lost verdict or a cleanup request on an admitted job. */
  lemma CloseTakes(db: Db, k: Key, t: Txn)
    requires Base(db) && k == JobKey(k.id) && At(db, k) == Some(Admitting) && PastPreparing(db, k)
    requires t == TBeginCleanup(k) || (t.TSync? && t.id == k.id && t.remote.status == Lost)
    ensures Lacks(Next(db, t), k)
  {
    var n := RowAt(db, k);
    ClosesRow(db, n, t);
    AtUpdated(db.queue, n, db.queue[n].(state := Terminalizing));
  }

  lemma ClosesRow(db: Db, n: nat, t: Txn)
    requires UniqueKeys(db.queue) && OneReserved(db.queue) && n < |db.queue| && db.queue[n].state == Admitting
    requires var k := db.queue[n].key;
             && k == JobKey(k.id) && PastPreparing(db, k)
             && (t == TBeginCleanup(k) || (t.TSync? && t.id == k.id && t.remote.status == Lost))
    ensures Next(db, t).queue == db.queue[n := db.queue[n].(state := Terminalizing)]
    ensures PastPreparing(Next(db, t), db.queue[n].key)
  {
    MatchesAt(db.queue, n, OPEN);
    UpdateOne(db.queue, n, EXECUTING, Move(Terminalizing));
    UpdateOne(db.queue, n, OPEN, Move(Terminalizing));
    FreedRow(db, n, Terminalizing);
  }

  lemma WindowTakes(s: Sys, t: Txn)
    requires RunInv(s) && HoldInv(s) && ReadsPreparing(s) && Enabled(s, Handle(t)) && Disturbs(s, t)
    ensures Lacks(Next(s.db, t), s.disp.k)
  {
    var k := s.disp.k;
    assert k == JobKey(k.id);
    Outsiders(s, t);
    if t.TQueueJob? {
      OpenIsAdmitting(s.db, k);
      StartTakes(s.db, k, t.digest);
    } else if At(s.db, k) == Some(Admitting) {
      var n := RowAt(s.db, k);
      MatchesAt(s.db.queue, n, {Admitting});
      FailShuts(s.db, k, t.now);
    } else {
      FinishTakes(s.db, k, t);
    }
  }

  /** A disturbing call takes the worker from the job. */
  lemma TakesAway(s: Sys, t: Txn)
    requires RunInv(s) && HoldInv(s) && Enabled(s, Handle(t)) && Disturbs(s, t)
    ensures Lacks(Next(s.db, t), s.disp.k)
  {
    var k := s.disp.k;
    if ReadsPreparing(s) {
      WindowTakes(s, t);
    } else {
      UnreadIsPast(s);
      if t.TFailJob? {
        FailShuts(s.db, k, t.now);
      } else {
        CloseTakes(s.db, k, t);
      }
    }
  }

  /** The dispatcher goes on with a job that does not hold the worker; nothing
      executes, and nothing that ever ran is reserved. */
  ghost predicate Robbed(w: World) {
    && Base(w.sys.db) && Acquires(w.sys.disp) && w.sys.disp.k.kind == JobOp && PastPreparing(w.sys.db, w.sys.disp.k)
    && !AnyIn(w.sys.db.queue, EXECUTING)
    && (forall j :: j in w.alive ==> At(w.sys.db, j) == Some(Released))
  }

  lemma NothingExecutes(db: Db, k: Key)
    requires UniqueKeys(db.queue) && OnlyExecuting(db, k) && Lacks(db, k)
    ensures !AnyIn(db.queue, EXECUTING)
  {
    forall i | 0 <= i < |db.queue| ensures db.queue[i].state !in EXECUTING { AtRow(db.queue, i); }
  }

  lemma RobsStore(s: Sys, t: Txn)
    requires RunInv(s) && HoldInv(s) && Enabled(s, Handle(t)) && Disturbs(s, t) && Moves(s.db, t, Next(s.db, t))
    ensures PastPreparing(Next(s.db, t), s.disp.k) && !AnyIn(Next(s.db, t).queue, EXECUTING)
  {
    TakesAway(s, t);
    assert !t.TAcquire? by { Outsiders(s, t); }
    ExecutingKept(s.db, t, Next(s.db, t), s.disp.k);
    NothingExecutes(Next(s.db, t), s.disp.k);
  }

  lemma Robs(w: World, t: Txn)
    requires RunInv(w.sys) && HoldInv(w.sys) && RuntimeInv(w) && Can(w, Control(Handle(t))) && Disturbs(w.sys, t)
    ensures var w' := Do(w, Control(Handle(t)));
            w' == w.(sys := w'.sys) && w'.sys.disp == w.sys.disp && Robbed(w')
  {
    var db, db' := w.sys.db, Next(w.sys.db, t);
    assert Moves(db, t, db') by { CommitMoves(w.sys, Handle(t)); }
    RobsStore(w.sys, t);
    forall j | j in w.alive ensures At(db', j) == Some(Released) { ReleasedStays(db, t, db', j); }
  }

  // ------------------------------------------------ a cleaner releases the worker

  lemma OnlyTeardown(q: seq<QueueRow>, n: nat)
    requires OneReserved(q) && n < |q| && q[n].state in TEARDOWN
    ensures Oldest(q, TEARDOWN) == n
  {
  }

  lemma ClaimEffect(db: Db, n: nat)
    requires Base(db) && n < |db.queue| && db.queue[n].state in TEARDOWN
    ensures Oldest(db.queue, TEARDOWN) == n
    ensures var db' := Next(db, TClaim);
            && Base(db') && db' == db.(queue := db'.queue)
            && |db'.queue| == |db.queue| && db'.queue[n].state == Cleaning && db'.queue[n].key == db.queue[n].key
  {
    ClaimsRow(db, n);
    assert Base(Next(db, TClaim)) by { TxnAlways(db, TClaim); }
  }

  lemma ClaimsRow(db: Db, n: nat)
    requires UniqueKeys(db.queue) && OneReserved(db.queue) && n < |db.queue| && db.queue[n].state in TEARDOWN
    ensures Oldest(db.queue, TEARDOWN) == n
    ensures Next(db, TClaim) == db.(queue := db.queue[n := PatchRow(db.queue[n], Patch(Some(Cleaning), Keep, true))])
  {
    OnlyTeardown(db.queue, n);
    UpdateOne(db.queue, n, TEARDOWN, Patch(Some(Cleaning), Keep, true));
    FreedRow(db, n, Cleaning);
  }

  lemma CompleteEffect(db: Db, n: nat)
    requires UniqueKeys(db.queue) && OneReserved(db.queue) && n < |db.queue| && db.queue[n].state == Cleaning
    ensures var db' := Next(db, TComplete(db.queue[n].key));
            !AnyIn(db'.queue, RESERVED) && db' == db.(queue := db'.queue)
  {
    MatchesAt(db.queue, n, TEARDOWN);
    UpdateOne(db.queue, n, TEARDOWN, Move(Released));
    FreedRow(db, n, Released);
    var q := db.queue[n := db.queue[n].(state := Released)];
    forall i | 0 <= i < |q| ensures q[i].state !in RESERVED { if i != n { assert db.queue[i].state !in RESERVED; } }
  }

  lemma FreshCleaner(m: map<nat, Cleaner>) returns (c: nat)
    ensures c !in m
  {
    c := FreshNumber(m.Keys);
  }

  lemma {:induction false} FreshNumber(s: set<nat>) returns (c: nat)
    ensures forall d :: d in s ==> d < c
    decreases |s|
  {
    c := 0;
    if d :| d in s {
      var rest := FreshNumber(s - {d});
      c := if rest <= d then d + 1 else rest;
      assert forall e :: e in s ==> e == d || e in s - {d};
    }
  }

  lemma ClaimLost(w: World, n: nat) returns (c: nat)
    requires Base(w.sys.db) && n < |w.sys.db.queue| && w.sys.db.queue[n].state in TEARDOWN
    ensures c !in w.cleaners && Quiet(w, Claim(c))
    ensures var w' := Do(w, Claim(c));
            && w' == w.(sys := w'.sys, cleaners := w.cleaners[c := Claimed(w.sys.db.queue[n].key)])
            && w'.sys.disp == w.sys.disp && w'.sys.db == w.sys.db.(queue := w'.sys.db.queue)
            && Base(w'.sys.db) && |w'.sys.db.queue| == |w.sys.db.queue|
            && w'.sys.db.queue[n].state == Cleaning && w'.sys.db.queue[n].key == w.sys.db.queue[n].key
  {
    c := FreshCleaner(w.cleaners);
    ClaimEffect(w.sys.db, n);
  }

  /** The cleaner removes what it owns until nothing beyond the baseline is left. */
  lemma {:induction false} RemoveOwned(before: World, steps: seq<Step>, w: World, c: nat, baseline: set<Resource>)
    returns (more: seq<Step>, w': World)
    requires Goes(before, steps, w) && c in w.cleaners && w.cleaners[c].Scanned? && w.inventory - baseline <= w.cleaners[c].owned
    ensures Goes(before, more, w') && w' == w.(inventory := w'.inventory) && w'.inventory <= baseline
    decreases w.inventory
  {
    if w.inventory <= baseline {
      more, w' := steps, w;
    } else {
      var r :| r in w.inventory && r !in baseline;
      GoesOn(before, steps, w, Remove(c, r));
      more, w' := RemoveOwned(before, steps + [Remove(c, r)], Do(w, Remove(c, r)), c, baseline);
    }
  }

  /** `w'` is `w` with other rows, inventory and cleaners. */
  ghost predicate Cleaned(w: World, w': World) {
    && w' == w.(sys := w'.sys, inventory := w'.inventory, cleaners := w'.cleaners)
    && w'.sys.disp == w.sys.disp && w'.sys.db == w.sys.db.(queue := w'.sys.db.queue)
  }

  /** The cleaner scans, removes and verifies. */
  lemma VerifyLost(before: World, steps: seq<Step>, w: World, c: nat, k: Key) returns (more: seq<Step>, w': World)
    requires Goes(before, steps, w) && c in w.cleaners && w.cleaners[c] == Claimed(k) && k !in w.alive
    ensures Goes(before, more, w') && w' == w.(inventory := w'.inventory, cleaners := w.cleaners[c := Verified(k)])
  {
    GoesOn(before, steps, w, Scan(c));
    var w1 := Do(w, Scan(c));
    if k in w.sys.db.baselines {
      var steps2, w2 := RemoveOwned(before, steps + [Scan(c)], w1, c, w.sys.db.baselines[k]);
      GoesOn(before, steps2, w2, Verify(c));
      more, w' := steps2 + [Verify(c)], Do(w2, Verify(c));
    } else {
      more, w' := steps + [Scan(c)], w1;
    }
  }

  lemma CompleteLost(before: World, steps: seq<Step>, w: World, n: nat, c: nat) returns (more: seq<Step>, w': World)
    requires Goes(before, steps, w) && UniqueKeys(w.sys.db.queue) && OneReserved(w.sys.db.queue)
    requires n < |w.sys.db.queue| && w.sys.db.queue[n].state == Cleaning
    requires c in w.cleaners && w.cleaners[c] == Verified(w.sys.db.queue[n].key)
    ensures Goes(before, more, w') && Cleaned(w, w') && !AnyIn(w'.sys.db.queue, RESERVED)
  {
    CompleteEffect(w.sys.db, n);
    GoesOn(before, steps, w, Complete(c));
    more, w' := steps + [Complete(c)], Do(w, Complete(c));
  }

  /** Whatever is torn down is released. */
  lemma ReleaseLost(before: World, steps: seq<Step>, w: World) returns (more: seq<Step>, w': World)
    requires Goes(before, steps, w) && Robbed(w)
    ensures Goes(before, more, w') && Cleaned(w, w') && !AnyIn(w'.sys.db.queue, RESERVED)
  {
    if AnyIn(w.sys.db.queue, RESERVED) {
      var n :| 0 <= n < |w.sys.db.queue| && w.sys.db.queue[n].state in RESERVED;
      AtRow(w.sys.db.queue, n);
      var c := ClaimLost(w, n);
      GoesOn(before, steps, w, Claim(c));
      var w1 := Do(w, Claim(c));
      var steps2, w2 := VerifyLost(before, steps + [Claim(c)], w1, c, w.sys.db.queue[n].key);
      assert UniqueKeys(w2.sys.db.queue) && OneReserved(w2.sys.db.queue);
      more, w' := CompleteLost(before, steps2, w2, n, c);
    } else {
      more, w' := steps, w;
    }
  }

  // --------------------------------------------------- the job starts unheld

  lemma ReadLost(before: World, steps: seq<Step>, w: World) returns (more: seq<Step>, w': World)
    requires Goes(before, steps, w) && Acquires(w.sys.disp) && w.sys.disp.k.kind == JobOp && PastPreparing(w.sys.db, w.sys.disp.k)
    ensures Goes(before, more, w') && w' == w.(sys := w'.sys) && w'.sys.db == w.sys.db
    ensures PreCreate(w'.sys.disp) && w'.sys.disp.k == w.sys.disp.k
  {
    if w.sys.disp.Admitted? {
      GoesOn(before, steps, w, Control(Read));
      more, w' := steps + [Control(Read)], Do(w, Control(Read));
    } else {
      more, w' := steps, w;
    }
  }

  lemma CaptureLost(before: World, steps: seq<Step>, w: World) returns (more: seq<Step>, w': World)
    requires Goes(before, steps, w) && PreCreate(w.sys.disp)
    ensures Goes(before, more, w') && w' == w.(sys := w'.sys) && w'.sys.db == w.sys.db
    ensures (w'.sys.disp.Captured? || w'.sys.disp.Prepared?) && w'.sys.disp.k == w.sys.disp.k
  {
    if w.sys.disp.Chosen? {
      var capture := Control(Capture(w.inventory));
      GoesOn(before, steps, w, capture);
      more, w' := steps + [capture], Do(w, capture);
    } else {
      more, w' := steps, w;
    }
  }

  lemma SaveLost(before: World, steps: seq<Step>, w: World) returns (more: seq<Step>, w': World)
    requires Goes(before, steps, w) && (w.sys.disp.Captured? || w.sys.disp.Prepared?)
    ensures Goes(before, more, w') && w' == w.(sys := w'.sys) && w'.sys.db.queue == w.sys.db.queue
    ensures w'.sys.disp == Prepared(w.sys.disp.k)
  {
    if w.sys.disp.Captured? {
      GoesOn(before, steps, w, Control(Save));
      more, w' := steps + [Control(Save)], Do(w, Control(Save));
    } else {
      more, w' := steps, w;
    }
  }

  lemma CreateAndAdd(before: World, steps: seq<Step>, w: World, r: Resource) returns (more: seq<Step>, w': World)
    requires Goes(before, steps, w) && w.sys.disp.Prepared? && w.sys.disp.k.kind == JobOp
    ensures Goes(before, more, w') && w'.sys.db == w.sys.db && w'.initial == w.initial && r in w'.inventory
  {
    var create, add := Control(Create(Success)), Add(w.sys.disp.k, r);
    GoesOn(before, steps, w, create);
    GoesOn(before, steps + [create], Do(w, create), add);
    more, w' := steps + [create] + [add], Do(Do(w, create), add);
  }

  lemma StartUnheld(before: World, steps: seq<Step>, w: World, r: Resource) returns (more: seq<Step>, w': World)
    requires Goes(before, steps, w) && Acquires(w.sys.disp) && w.sys.disp.k.kind == JobOp && PastPreparing(w.sys.db, w.sys.disp.k)
    requires !AnyIn(w.sys.db.queue, RESERVED) && r !in w.initial
    ensures Goes(before, more, w') && !Tight(w')
  {
    var steps1, w1 := ReadLost(before, steps, w);
    var steps2, w2 := CaptureLost(before, steps1, w1);
    var steps3, w3 := SaveLost(before, steps2, w2);
    more, w' := CreateAndAdd(before, steps3, w3, r);
  }

  /** The worker is released and the job then started: what it adds stays. */
  lemma LeaksLater(w: World, t: Txn, r: Resource)
    requires WorldInv(w) && Can(w, Control(Handle(t))) && Disturbs(w.sys, t) && r !in w.initial
    ensures !StaysTight(Do(w, Control(Handle(t))))
  {
    var w' := Do(w, Control(Handle(t)));
    Robs(w, t);
    var steps1, w1 := ReleaseLost(w', [], w');
    var steps2, w2 := StartUnheld(w', steps1, w1, r);
    assert Goes(w', steps2, w2) && !Tight(w2);
  }

  /** In every state of a run, a transaction from outside the dispatcher is
      undisturbing exactly when no undisturbed continuation after it leaks. */
  lemma UndisturbedIsExact(w: World, t: Txn, r: Resource)
    requires WorldInv(w) && Can(w, Control(Handle(t))) && r !in w.initial
    ensures Undisturbed(w.sys, Handle(t)) <==> StaysTight(Do(w, Control(Handle(t))))
  {
    var w' := Do(w, Control(Handle(t)));
    if Undisturbed(w.sys, Handle(t)) {
      StepKeepsWorld(w, Control(Handle(t)));
      forall steps, w2 | Goes(w', steps, w2) ensures Tight(w2) {
        GoesKeeps(w', steps, w2);
        WorldIsTight(w2);
      }
    } else {
      LeaksLater(w, t, r);
    }
  }

  // ------------------------------------------------------- from the empty store

  function Controls(acts: seq<Action>): seq<Step> {
    seq(|acts|, i requires 0 <= i < |acts| => Control(acts[i]))
  }

  /** Ordinary actions are undisturbed steps that leave the worker alone. */
  lemma {:induction false} Lift(w: World, acts: seq<Action>, s: Sys)
    requires Leads(Calm, w.sys, acts, s) && AllOrdinary(acts)
    ensures Goes(w, Controls(acts), w.(sys := s))
    decreases |acts|
  {
    if acts != [] {
      assert Ordinary(acts[0]);
      var w1 := Do(w, Control(acts[0]));
      assert w1 == w.(sys := Apply(w.sys, acts[0]));
      Lift(w1, acts[1..], s);
      assert Controls(acts)[1..] == Controls(acts[1..]);
    }
  }

  /** A failure, a lost verdict or a cleanup request. */
  predicate Closing(t: Txn, id: string) {
    (t.TFailJob? && t.id == id) || (t.TSync? && t.id == id && t.remote.status == Lost) || t == TBeginCleanup(JobKey(id))
  }

  /** A job is chosen and then failed, declared lost or torn down: reached from
      any initial inventory, with an undisturbed continuation that leaves `r`
      behind. */
  lemma LeakIsReachable(initial: set<Resource>, id: string, digest: string, t: Txn, r: Resource)
    returns (steps: seq<Step>, w: World)
    requires Closing(t, id) && r !in initial
    ensures Goes(StartWorld(initial), steps, w) && w.sys.disp == Chosen(JobKey(id))
    ensures Can(w, Control(Handle(t))) && !StaysTight(Do(w, Control(Handle(t))))
  {
    var start := StartWorld(initial);
    var acts, s := ChosenIsListed(id, digest);
    Lift(start, acts, s);
    steps, w := DecideTake(start, Controls(acts), start.(sys := s), id, t);
    LeaksAt(start, steps, w, t, r);
  }

  lemma LeaksAt(start: World, steps: seq<Step>, w: World, t: Txn, r: Resource)
    requires start == StartWorld(start.initial) && Goes(start, steps, w) && w.initial == start.initial && r !in start.initial
    requires Can(w, Control(Handle(t))) && Disturbs(w.sys, t)
    ensures !StaysTight(Do(w, Control(Handle(t))))
  {
    assert WorldInv(w) by {
      StartIsSound(start.initial);
      GoesKeeps(start, steps, w);
    }
    UndisturbedIsExact(w, t, r);
  }

  /** A job is started before the dispatcher has read it. */
  lemma StartLeakIsReachable(initial: set<Resource>, id: string, digest: string, r: Resource)
    returns (steps: seq<Step>, w: World)
    requires r !in initial
    ensures Goes(StartWorld(initial), steps, w) && w.sys.disp == Admitted(JobKey(id)) && ReadsPreparing(w.sys)
    ensures Can(w, Control(Handle(TQueueJob(id, digest)))) && !StaysTight(Do(w, Control(Handle(TQueueJob(id, digest)))))
  {
    var start := StartWorld(initial);
    var s := ReadWindowIsReachable(id);
    var acts := [Handle(TCreateJob(id, 0))] + [Acquire(1)];
    Lift(start, acts, s);
    steps, w := Controls(acts), start.(sys := s);
    MatchesAt(s.db.queue, 0, {Queued, Admitting});
    LeaksAt(start, steps, w, TQueueJob(id, digest), r);
  }

  lemma StartIsSound(initial: set<Resource>)
    ensures WorldInv(StartWorld(initial))
  {
  }

  lemma DecideTake(start: World, steps: seq<Step>, w: World, id: string, t: Txn) returns (more: seq<Step>, w': World)
    requires Goes(start, steps, w) && w.sys.disp == Chosen(JobKey(id)) && OnlyJob(w.sys.db, id, Admitting)
    requires id in w.sys.listed && Closing(t, id)
    ensures Goes(start, more, w') && w'.sys.disp == w.sys.disp && w'.initial == w.initial
    ensures Can(w', Control(Handle(t))) && Disturbs(w'.sys, t)
  {
    if t.TFailJob? {
      more, w' := steps, w;
    } else {
      GoesOn(start, steps, w, Control(Decide(t)));
      more, w' := steps + [Control(Decide(t))], Do(w, Control(Decide(t)));
    }
  }
}
