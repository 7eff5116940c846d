/** What the cleaners spare, in every run of the world: whatever the other callers
    do, no removal takes a resource of the operation's first baseline or one that
    was there at the start. */
module Removals {
  import opened Control
  import opened Lease
  import opened History
  import opened Protocol
  import opened ProtocolProofs
  import opened Runs
  import opened Leaks

  lemma SameBaselines(db: Db, t: Txn, db': Db)
    requires Shape(db, t, db') && !t.TSaveBaseline?
    ensures db'.baselines == db.baselines
  {
  }

  /** Only the dispatcher saves a baseline. */
  lemma BaselinesAfter(s: Sys, a: Action)
    requires RunInv(s) && Enabled(s, a) && !a.Save?
    ensures Apply(s, a).db.baselines == s.db.baselines
  {
    OnlyTxns(s, a);
    if Commits(s, a) {
      CommitMoves(s, a);
      assert !TxnOf(s, a).TSaveBaseline? by { if a.Handle? { Outsiders(s, a.t); } }
      SameBaselines(s.db, TxnOf(s, a), Apply(s, a).db);
    }
  }

  lemma SaveOnlyStores(db: Db, k: Key, resources: set<Resource>)
    ensures var db' := Next(db, TSaveBaseline(k, resources));
            && db' == db.(baselines := db'.baselines)
            && k in db'.baselines
            && (forall j :: j in db.baselines ==> j in db'.baselines && db'.baselines[j] == db.baselines[j])
            && (forall j :: j in db'.baselines ==> j in db.baselines || (j == k && db'.baselines[j] == resources))
  {
  }

  /** Only a capture gives the dispatcher an inventory: the worker's own. */
  lemma CapturedAfter(s: Sys, a: Action)
    requires Enabled(s, a) && Apply(s, a).disp.Captured?
    ensures Apply(s, a).disp == s.disp || (a.Capture? && Apply(s, a).disp.inventory == a.inventory)
  {
  }

  lemma ActionSpares(w: World, a: Action)
    requires SpareInv(w) && Enabled(w.sys, a) && (a.Capture? ==> a.inventory == w.inventory)
    ensures SpareInv(w.(sys := Apply(w.sys, a)))
  {
    var w' := w.(sys := Apply(w.sys, a));
    assert RunInv(w'.sys) by { StepRuns(w.sys, a); }
    if a.Save? {
      SaveOnlyStores(w.sys.db, w.sys.disp.k, w.sys.disp.inventory);
    } else {
      BaselinesAfter(w.sys, a);
    }
    if w'.sys.disp.Captured? { CapturedAfter(w.sys, a); }
    forall c | c in w'.cleaners ensures Sparing(w', w'.cleaners[c]) { assert Sparing(w, w.cleaners[c]); }
  }

  /** Same store, and cleaners that spare what they should. */
  lemma CleanersSpare(w: World, cleaners: map<nat, Cleaner>)
    requires SpareInv(w) && forall c :: c in cleaners ==> Sparing(w, cleaners[c])
    ensures SpareInv(w.(cleaners := cleaners))
  {
    var w' := w.(cleaners := cleaners);
    forall c | c in w'.cleaners ensures Sparing(w', w'.cleaners[c]) { assert Sparing(w, cleaners[c]); }
  }

  lemma RemoveSpares(w: World, c: nat, r: Resource)
    requires SpareInv(w) && Can(w, Remove(c, r))
    ensures SpareInv(Do(w, Remove(c, r)))
    ensures w.cleaners[c].k in w.sys.db.baselines && r !in w.sys.db.baselines[w.cleaners[c].k]
    ensures r !in w.initial || r in w.gone
  {
    var w' := Do(w, Remove(c, r));
    assert Sparing(w, w.cleaners[c]);
    forall d | d in w'.cleaners ensures Sparing(w', w'.cleaners[d]) { assert Sparing(w, w.cleaners[d]); }
  }

  lemma StockSpares(w: World, w': World)
    requires SpareInv(w) && w' == w.(inventory := w'.inventory, gone := w'.gone) && w.gone <= w'.gone && Keeps(w', w'.inventory)
    ensures SpareInv(w')
  {
    forall d | d in w'.cleaners ensures Sparing(w', w'.cleaners[d]) { assert Sparing(w, w.cleaners[d]); }
  }

  /** Every step keeps it. */
  lemma StepSpares(w: World, st: Step)
    requires SpareInv(w) && Can(w, st)
    ensures SpareInv(Do(w, st)) && Do(w, st).initial == w.initial
  {
    match st
    case Control(a) => ActionSpares(w, a); LaunchSpares(w.(sys := Apply(w.sys, a)), Do(w, st));
    case Claim(c) => ActionSpares(w, Handle(TClaim)); CleanersSpare(w.(sys := Apply(w.sys, Handle(TClaim))), Do(w, st).cleaners);
    case Scan(c) => CleanersSpare(w, Do(w, st).cleaners);
    case Remove(c, r) => RemoveSpares(w, c, r);
    case Verify(c) => CleanersSpare(w, Do(w, st).cleaners);
    case GiveUp(c) => CleanersSpare(w, Do(w, st).cleaners);
    case Complete(c) =>
      var t := TComplete(w.cleaners[c].k);
      ActionSpares(w, Handle(t));
      CleanersSpare(w.(sys := Apply(w.sys, Handle(t))), Do(w, st).cleaners);
    case Add(k, r) => StockSpares(w, Do(w, st));
    case Vanish(r) => StockSpares(w, Do(w, st));
    case Stop(k) => LaunchSpares(w, Do(w, st));
    case Restart => ActionSpares(w, Crash); CleanersSpare(w.(sys := Apply(w.sys, Crash)), map[]);
  }

  lemma LaunchSpares(w: World, w': World)
    requires SpareInv(w) && w' == w.(alive := w'.alive, tainted := w'.tainted)
    ensures SpareInv(w')
  {
    forall d | d in w'.cleaners ensures Sparing(w', w'.cleaners[d]) { assert Sparing(w, w.cleaners[d]); }
  }

  // -------------------------------------------------------------- whole runs

  lemma {:induction false} RunSpares(ws: seq<World>, steps: seq<Step>, i: nat)
    requires IsWorldRun(ws, steps) && i < |ws|
    ensures SpareInv(ws[i]) && ws[i].initial == ws[0].initial
  {
    if i > 0 {
      RunSpares(ws, steps, i - 1);
      StepSpares(ws[i - 1], steps[i - 1]);
      assert ws[i] == Do(ws[i - 1], steps[i - 1]);
    }
  }

  /** In every run, whatever is not there any more of the initial inventory
      vanished by other hands: no cleanup takes anything that was there before. */
  lemma InitialIsSpared(ws: seq<World>, steps: seq<Step>, i: nat)
    requires IsWorldRun(ws, steps) && i < |ws|
    ensures ws[0].inventory - ws[i].gone <= ws[i].inventory
    ensures i < |steps| && steps[i].Remove? ==> steps[i].r !in ws[0].inventory || steps[i].r in ws[i].gone
  {
    RunSpares(ws, steps, i);
    if i < |steps| && steps[i].Remove? {
      assert Can(ws[i], steps[i]);
      RemoveSpares(ws[i], steps[i].c, steps[i].r);
    }
  }

  /** One step of the world settles the store. */
  lemma WorldSettles(w: World, st: Step)
    requires RunInv(w.sys) && Can(w, st)
    ensures Settled(w.sys.db, Do(w, st).sys.db)
  {
    match st
    case Control(a) => StepSettles(w.sys, a);
    case Claim(c) => StepSettles(w.sys, Handle(TClaim));
    case Complete(c) => StepSettles(w.sys, Handle(TComplete(w.cleaners[c].k)));
    case _ => FollowsItself(w.sys);
  }

  lemma NextSettles(ws: seq<World>, steps: seq<Step>, i: nat)
    requires IsWorldRun(ws, steps) && i < |steps|
    ensures Settled(ws[i].sys.db, ws[i + 1].sys.db)
  {
    RunSpares(ws, steps, i);
    assert Can(ws[i], steps[i]) && ws[i + 1] == Do(ws[i], steps[i]);
    WorldSettles(ws[i], steps[i]);
  }

  lemma BaselineSettled(db: Db, db': Db, k: Key)
    requires Settled(db, db') && k in db.baselines
    ensures k in db'.baselines && db'.baselines[k] == db.baselines[k]
  {
  }

  lemma {:induction false} BaselineStays(ws: seq<World>, m: nat, i: nat, k: Key)
    requires m <= i < |ws| && forall j :: m <= j < i ==> Settled(ws[j].sys.db, ws[j + 1].sys.db)
    requires k in ws[m].sys.db.baselines
    ensures k in ws[i].sys.db.baselines && ws[i].sys.db.baselines[k] == ws[m].sys.db.baselines[k]
    decreases i
  {
    if m < i {
      BaselineStays(ws, m, i - 1, k);
      assert Settled(ws[i - 1].sys.db, ws[i - 1 + 1].sys.db);
      BaselineSettled(ws[i - 1].sys.db, ws[i].sys.db, k);
    }
  }

  /** In every run, no removal takes a resource of the operation's first saved
      baseline, however often the operation was admitted and the cleanup retried. */
  lemma RemovalsSpareBaseline(ws: seq<World>, steps: seq<Step>, i: nat)
    requires IsWorldRun(ws, steps) && i < |steps| && steps[i].Remove?
    ensures var w := ws[i]; var k := w.cleaners[steps[i].c].k;
            && k in w.sys.db.baselines && steps[i].r !in w.sys.db.baselines[k]
            && (forall m :: 0 <= m <= i && k in ws[m].sys.db.baselines ==> steps[i].r !in ws[m].sys.db.baselines[k])
  {
    RunSpares(ws, steps, i);
    RemoveSpares(ws[i], steps[i].c, steps[i].r);
    var k := ws[i].cleaners[steps[i].c].k;
    forall j | 0 <= j < i ensures Settled(ws[j].sys.db, ws[j + 1].sys.db) { NextSettles(ws, steps, j); }
    forall m | 0 <= m <= i && k in ws[m].sys.db.baselines ensures steps[i].r !in ws[m].sys.db.baselines[k] {
      BaselineStays(ws, m, i, k);
    }
  }
}
