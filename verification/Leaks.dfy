/** The worker's unprotected Docker resources over whole runs: what operations
    add while their runtime lives, what the cleaners remove, and what is left
    whenever no operation holds the worker. */
module Leaks {
  import opened Wrappers
  import opened Control
  import opened Lease
  import opened History
  import opened Protocol

  /** One cleaner, the coordinator's worker or the capacity emergency. */
  datatype Cleaner =
    | Claimed(k: Key)
    | Scanned(k: Key, owned: set<Resource>)   // owned by the operation, to be removed
    | Verified(k: Key)                        // the final inventory found nothing left

  /** `gone` collects what vanished by other hands, `alive` the operations with a
      running runtime, `tainted` those that ever had one. */
  datatype World = World(
    sys: Sys, initial: set<Resource>, inventory: set<Resource>, gone: set<Resource>,
    alive: set<Key>, tainted: set<Key>, cleaners: map<nat, Cleaner>)

  function StartWorld(initial: set<Resource>): World {
    World(START, initial, initial, {}, {}, {}, map[])
  }

  datatype Step =
    | Control(a: Action)
    | Claim(c: nat)
    | Scan(c: nat)
    | Remove(c: nat, r: Resource)
    | Verify(c: nat)
    | GiveUp(c: nat)
    | Complete(c: nat)
    | Add(k: Key, r: Resource)
    | Vanish(r: Resource)
    | Stop(k: Key)
    | Restart

  /** It will create the job it has acquired unless it backs out itself. */
  predicate Holds(s: Sys) { Acquires(s.disp) && s.disp.k.kind == JobOp && !ReadsPreparing(s) }

  /** Of a job the dispatcher has acquired and not created: a start before it has
      read the record; a cancellation before that, once its row is no longer
      admitted; a failure that takes effect; a lost verdict; and a cleanup request
      once it is past its preparation. */
  predicate Disturbs(s: Sys, t: Txn) {
    && Acquires(s.disp) && s.disp.k.kind == JobOp
    && var k := s.disp.k;
       match t
       case TQueueJob(id, digest) => id == k.id && ReadsPreparing(s) && Matches(s.db.queue, k, {Queued, Admitting})
       case TCancelJob(id, now) => id == k.id && ReadsPreparing(s) && !Matches(s.db.queue, k, {Admitting})
       case TFailJob(id, now) => id == k.id && id in s.db.jobs && s.db.jobs[id].status in {Preparing, JobQueued}
       case TSync(id, remote) => id == k.id && remote.status == Lost
       case TBeginCleanup(key) => key == k && !ReadsPreparing(s)
       case _ => false
  }

  predicate Undisturbed(s: Sys, a: Action) {
    a.Handle? ==> !Disturbs(s, a.t)
  }

  predicate Can(w: World, st: Step) {
    match st
    case Control(a) =>
      && Enabled(w.sys, a)
      && !a.Crash? && (a.Handle? ==> !a.t.TClaim? && !a.t.TComplete?)
      && (a.Capture? ==> a.inventory == w.inventory)
    case Claim(c) => c !in w.cleaners && Oldest(w.sys.db.queue, TEARDOWN) < |w.sys.db.queue|
    case Scan(c) => c in w.cleaners && w.cleaners[c].Claimed?
    case Remove(c, r) => c in w.cleaners && w.cleaners[c].Scanned? && r in w.cleaners[c].owned
    case Verify(c) =>
      && c in w.cleaners && w.cleaners[c].Scanned?
      && w.cleaners[c].k in w.sys.db.baselines
      && w.inventory <= w.sys.db.baselines[w.cleaners[c].k]
      && w.cleaners[c].k !in w.alive
    case GiveUp(c) => c in w.cleaners
    case Complete(c) => c in w.cleaners && w.cleaners[c].Verified?
    case Add(k, r) => k in w.alive
    case Vanish(r) => true
    case Stop(k) => true
    case Restart => true
  }

  /** The operation whose runtime an action may start. */
  predicate Launches(s: Sys, a: Action) {
    || (a.Create? && s.disp.Prepared?)
    || (a.Activate? && s.disp.Prepared? && Run(s.db, TActivate(s.disp.k)).Ok?)
  }

  function Do(w: World, st: Step): World
    requires Can(w, st)
  {
    match st
    case Control(a) =>
      var w' := w.(sys := Apply(w.sys, a));
      if Launches(w.sys, a) then w'.(alive := w.alive + {w.sys.disp.k}, tainted := w.tainted + {w.sys.disp.k}) else w'
    case Claim(c) =>
      var k := w.sys.db.queue[Oldest(w.sys.db.queue, TEARDOWN)].key;
      w.(sys := Apply(w.sys, Handle(TClaim)), cleaners := w.cleaners[c := Claimed(k)])
    case Scan(c) =>
      var k := w.cleaners[c].k;
      w.(cleaners := w.cleaners[c :=
        if k in w.sys.db.baselines then Scanned(k, w.inventory - w.sys.db.baselines[k]) else Verified(k)])
    case Remove(c, r) => w.(inventory := w.inventory - {r})
    case Verify(c) => w.(cleaners := w.cleaners[c := Verified(w.cleaners[c].k)])
    case GiveUp(c) => w.(cleaners := w.cleaners - {c})
    case Complete(c) =>
      w.(sys := Apply(w.sys, Handle(TComplete(w.cleaners[c].k))), cleaners := w.cleaners - {c})
    case Add(k, r) => w.(inventory := w.inventory + {r})
    case Vanish(r) => w.(inventory := w.inventory - {r}, gone := w.gone + {r})
    case Stop(k) => w.(alive := w.alive - {k})
    case Restart => w.(sys := Apply(w.sys, Crash), cleaners := map[])
  }

  ghost predicate IsWorldRun(ws: seq<World>, steps: seq<Step>) {
    && |ws| == |steps| + 1
    && ws[0] == StartWorld(ws[0].initial)
    && (forall i :: 0 <= i < |steps| ==> Can(ws[i], steps[i]) && ws[i + 1] == Do(ws[i], steps[i]))
  }

  ghost predicate IsUndisturbedRun(ws: seq<World>, steps: seq<Step>) {
    && IsWorldRun(ws, steps)
    && (forall i :: 0 <= i < |steps| && steps[i].Control? ==> Undisturbed(ws[i].sys, steps[i].a))
  }

  // ---------------------------------------------------------- what cleaners spare

  /** Everything initial that did not vanish by other hands. */
  predicate Keeps(w: World, resources: set<Resource>) {
    w.initial - w.gone <= resources
  }

  /** What a cleaner is about to remove is neither initial nor in the baseline. */
  predicate Sparing(w: World, cl: Cleaner) {
    cl.Scanned? ==>
      && cl.k in w.sys.db.baselines
      && cl.owned !! w.sys.db.baselines[cl.k]
      && cl.owned !! w.initial - w.gone
  }

  ghost predicate SpareInv(w: World) {
    && RunInv(w.sys)
    && Keeps(w, w.inventory)
    && (forall k :: k in w.sys.db.baselines ==> Keeps(w, w.sys.db.baselines[k]))
    && (w.sys.disp.Captured? ==> Keeps(w, w.sys.disp.inventory))
    && (forall c :: c in w.cleaners ==> Sparing(w, w.cleaners[c]))
  }

  // ----------------------------------------------------------- what nobody leaves

  predicate Held(s: Option<QueueState>) { s.Some? && s.value in RESERVED }

  /** A job about to be created holds the worker, one not read yet is out of the
      queue, and nothing else executes. */
  ghost predicate HoldInv(s: Sys) {
    && (Holds(s) ==> At(s.db, s.disp.k) == Some(Admitting))
    && (ReadsPreparing(s) ==> Unstarted(At(s.db, s.disp.k)))
    && (Acquires(s.disp) ==> OnlyExecuting(s.db, s.disp.k))
  }

  /** Admitted, or closed since. */
  predicate Unstarted(s: Option<QueueState>) { s == Some(Admitting) || Shut(s) }

  ghost predicate OnlyExecuting(db: Db, k: Key) {
    forall i :: 0 <= i < |db.queue| && db.queue[i].state in EXECUTING ==> db.queue[i].key == k
  }

  /** Reports on existing services are about jobs created or past admission. */
  ghost predicate IntentsPast(s: Sys) {
    forall t :: t in s.intents ==> IntentPast(s, t)
  }

  predicate IntentPast(s: Sys, t: Txn) {
    t.TSync? && t.remote.status != Lost ==> t.id in s.created || PastAdmission(At(s.db, JobKey(t.id)))
  }

  ghost predicate HoldingInv(s: Sys) {
    OnceInv(s) && HoldInv(s) && IntentsPast(s)
  }

  ghost predicate BaselineInv(w: World) {
    && (forall k :: k in w.sys.db.baselines ==> w.sys.db.baselines[k] <= w.initial)
    && (w.sys.disp.Captured? ==> w.sys.disp.inventory <= w.initial)
    && (w.sys.disp.Prepared? ==> w.sys.disp.k in w.sys.db.baselines)
  }

  ghost predicate Tainted(w: World, k: Key) {
    && k in w.sys.db.baselines
    && (k.kind == JobOp ==> k.id in w.sys.created)
    && (k.kind == BuildOp ==> PastAdmission(At(w.sys.db, k)))
  }

  ghost predicate RuntimeInv(w: World) {
    && (forall k :: k in w.tainted ==> Tainted(w, k))
    && (forall k :: k in w.alive ==> k in w.tainted && Held(At(w.sys.db, k)))
    && (Acquires(w.sys.disp) ==> forall k :: k in w.tainted ==> At(w.sys.db, k) == Some(Released))
  }

  ghost predicate StockInv(w: World) {
    w.inventory <= w.initial || exists k :: k in w.tainted && Held(At(w.sys.db, k))
  }

  ghost predicate CleanerInv(w: World, cl: Cleaner) {
    && Shut(At(w.sys.db, cl.k))
    && (cl.Verified? ==> cl.k !in w.alive && (cl.k in w.tainted && Held(At(w.sys.db, cl.k)) ==> w.inventory <= w.initial))
  }

  ghost predicate CleanersInv(w: World) {
    forall c :: c in w.cleaners ==> CleanerInv(w, w.cleaners[c])
  }

  ghost predicate WorldInv(w: World) {
    && HoldingInv(w.sys)
    && BaselineInv(w)
    && RuntimeInv(w)
    && StockInv(w)
    && CleanersInv(w)
  }
}
