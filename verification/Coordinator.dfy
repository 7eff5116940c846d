/** The coalesced cleanup worker: `Advance`, `Drain` and the worker loop as lock
    sections that interleave freely with each other, with the store and with
    crashes. No accepted wakeup is ever lost. */
module Coordinator {
  import opened Sequences

  /** The fields under the mutex. */
  datatype Flags = Flags(running: bool, pending: bool, draining: bool)

  /** The lock section of `Advance`: whether it was accepted, whether it starts a worker. */
  function Advanced(f: Flags): (Flags, bool, bool) {
    if f.draining then (f, false, false)
    else if f.running then (f.(pending := true), true, false)
    else (Flags(true, true, false), true, true)
  }

  function Drained(f: Flags): Flags { f.(draining := true) }

  /** The lock section at the top of the worker's loop. */
  function Cleared(f: Flags): Flags { f.(pending := false) }

  /** The lock section after a claim that found nothing: whether the worker goes on. */
  function Settled(f: Flags): (Flags, bool) {
    if f.pending then (f, true) else (f.(running := false), false)
  }

  function Finished(f: Flags): Flags { f.(running := false) }

  /** The coordinator's own state, as the object that the source updates. */
  class WakeState {
    var running: bool
    var pending: bool
    var draining: bool

    ghost function Now(): Flags
      reads this
    {
      Flags(running, pending, draining)
    }

    constructor ()
      ensures Now() == Flags(false, false, false)
    {
      running, pending, draining := false, false, false;
    }

    method Advance() returns (accepted: bool, starts: bool)
      modifies this
      ensures (Now(), accepted, starts) == Advanced(old(Now()))
      ensures accepted <==> !old(draining)
      ensures accepted ==> running && pending
      ensures starts <==> running && !old(running)
    {
      if draining {
        return false, false;
      }
      pending := true;
      if running {
        return true, false;
      }
      running := true;
      return true, true;
    }

    method Drain()
      modifies this
      ensures Now() == Drained(old(Now())) && draining
    {
      draining := true;
    }

    method ClearPending()
      modifies this
      ensures Now() == Cleared(old(Now())) && !pending
    {
      pending := false;
    }

    method Settle() returns (again: bool)
      modifies this
      ensures (Now(), again) == Settled(old(Now()))
      ensures again <==> old(pending)
      ensures running == (old(running) && again)
    {
      if pending {
        return true;
      }
      running := false;
      return false;
    }

    method Finish()
      modifies this
      ensures Now() == Finished(old(Now())) && !running
    {
      running := false;
    }
  }

  // ---------------------------------------------------------- the interleaving

  /** Where a worker stands in its loop. */
  datatype Worker<K> = Top | Claiming | Cleaning(k: K) | Retrying | FoundNone | Finishing

  /** `records` are the teardown records in the store. Each is owed an `Advance`
      by whoever wrote it, was heard by an accepted one, was deferred to the next
      process by one that came while draining, or was abandoned by a writer that
      returned without one. */
  datatype State<K> = State(
    flags: Flags, live: bool, workers: seq<Worker<K>>,
    records: set<K>, owed: set<K>, heard: set<K>, deferred: set<K>, abandoned: set<K>)

  function Started<K>(records: set<K>): State<K> {
    State(Flags(false, false, false), true, [], records, records, {}, {}, {})
  }

  datatype Move<K> =
    | Begin(k: K)              // a transaction commits a teardown record
    | Advance(ks: set<K>)      // the Advance that follows; for no record, a mere nudge
    | Abandon(k: K)            // the writer returns without it: an audit error, a capacity emergency
    | Drain
    | Cancel                   // the coordinator's context ends
    | Elsewhere(k: K)          // the record is completed by the capacity emergency
    | Clear(i: nat)
    | Claim(i: nat, k: K)
    | ClaimNone(i: nat)
    | ClaimFails(i: nat)
    | Completes(i: nat)
    | CleanFails(i: nat)
    | Waited(i: nat)
    | Settle(i: nat)
    | Finish(i: nat)
    | Restart                  // crash; startup calls Advance once

  predicate WorkerAt<K(==)>(s: State<K>, i: nat, w: Worker<K>) { i < |s.workers| && s.workers[i] == w }

  predicate CanMove<K(==)>(s: State<K>, m: Move<K>) {
    match m
    case Begin(k) => k !in s.records
    case Advance(ks) => ks <= s.owed
    case Abandon(k) => k in s.owed
    case Drain => true
    case Cancel => true
    case Elsewhere(k) => k in s.records
    case Clear(i) => WorkerAt(s, i, Top)
    case Claim(i, k) => WorkerAt(s, i, Claiming) && k in s.records
    case ClaimNone(i) => WorkerAt(s, i, Claiming) && s.records == {}
    case ClaimFails(i) => WorkerAt(s, i, Claiming)
    case Completes(i) => i < |s.workers| && s.workers[i].Cleaning?
    case CleanFails(i) => i < |s.workers| && s.workers[i].Cleaning?
    case Waited(i) => WorkerAt(s, i, Retrying)
    case Settle(i) => WorkerAt(s, i, FoundNone)
    case Finish(i) => WorkerAt(s, i, Finishing)
    case Restart => true
  }

  function Moved<K(==)>(s: State<K>, m: Move<K>): State<K>
    requires CanMove(s, m)
  {
    match m
    case Begin(k) =>
      s.(records := s.records + {k}, owed := s.owed + {k},
         heard := s.heard - {k}, deferred := s.deferred - {k}, abandoned := s.abandoned - {k})
    case Advance(ks) =>
      var (flags, accepted, starts) := Advanced(s.flags);
      s.(flags := flags, workers := if starts then s.workers + [Top] else s.workers,
         owed := s.owed - ks,
         heard := if accepted then s.heard + ks + s.abandoned else s.heard,
         abandoned := if accepted then {} else s.abandoned,
         deferred := if accepted then s.deferred else s.deferred + ks)
    case Abandon(k) => s.(owed := s.owed - {k}, abandoned := s.abandoned + {k})
    case Drain => s.(flags := Drained(s.flags))
    case Cancel => s.(live := false)
    case Elsewhere(k) => s.(records := s.records - {k})
    case Clear(i) => s.(flags := Cleared(s.flags), workers := s.workers[i := Claiming])
    case Claim(i, k) => s.(workers := s.workers[i := Cleaning(k)])
    case ClaimNone(i) => s.(workers := s.workers[i := FoundNone])
    case ClaimFails(i) => s.(workers := s.workers[i := if s.live then Retrying else Finishing])
    case Completes(i) => s.(records := s.records - {s.workers[i].k}, workers := s.workers[i := Top])
    case CleanFails(i) => s.(workers := s.workers[i := if s.live then Retrying else Finishing])
    case Waited(i) => s.(workers := s.workers[i := if s.live then Top else Finishing])
    case Settle(i) =>
      var (flags, again) := Settled(s.flags);
      s.(flags := flags, workers := if again then s.workers[i := Top] else Without(s.workers, i))
    case Finish(i) => s.(flags := Finished(s.flags), workers := Without(s.workers, i))
    case Restart => Started(s.records)
  }

  /** A worker that still has a claim ahead of it. */
  predicate WillClaim<K>(s: State<K>, w: Worker<K>) {
    w.Top? || w.Claiming? || w.Cleaning? || w.Retrying? || (w.FoundNone? && s.flags.pending)
  }

  ghost predicate WakeInv<K>(s: State<K>) {
    // the flag counts the workers, and there is at most one
    && |s.workers| == (if s.flags.running then 1 else 0)
    // every record is accounted for
    && s.records <= s.owed + s.heard + s.deferred + s.abandoned
    && s.owed !! s.abandoned
    && (s.deferred != {} ==> s.flags.draining)
    // a worker gives up only when the context has ended
    && (s.live ==> forall i :: 0 <= i < |s.workers| ==> !s.workers[i].Finishing?)
    // a heard record keeps a worker that will claim again
    && (s.live && s.records * s.heard != {} ==> s.flags.running && WillClaim(s, s.workers[0]))
    // an unanswered wakeup does too
    && (s.live && s.flags.pending && s.flags.running ==> WillClaim(s, s.workers[0]))
  }

  lemma MoveKeeps<K>(s: State<K>, m: Move<K>)
    requires WakeInv(s) && CanMove(s, m)
    ensures WakeInv(Moved(s, m))
  {
    var s' := Moved(s, m);
    if m.Begin? || m.Elsewhere? || m.Completes? {
      assert s'.records * s'.heard <= s.records * s.heard;
    } else if m.ClaimNone? || m.Settle? || m.Finish? {
      assert s.records == {} ==> s.records * s.heard == {};
    } else if m.Restart? {
      assert s'.records * s'.heard == {};
    }
  }

  ghost predicate IsWakeRun<K(!new)>(ss: seq<State<K>>, ms: seq<Move<K>>) {
    && |ss| == |ms| + 1
    && ss[0] == Started(ss[0].records)
    && (forall i :: 0 <= i < |ms| ==> CanMove(ss[i], ms[i]) && ss[i + 1] == Moved(ss[i], ms[i]))
  }

  lemma {:induction false} WakeRunKeeps<K(!new)>(ss: seq<State<K>>, ms: seq<Move<K>>, i: nat)
    requires IsWakeRun(ss, ms) && i < |ss|
    ensures WakeInv(ss[i])
  {
    if i > 0 {
      WakeRunKeeps(ss, ms, i - 1);
      MoveKeeps(ss[i - 1], ms[i - 1]);
      assert ss[i] == Moved(ss[i - 1], ms[i - 1]);
    }
  }

  /** In every state of every interleaving: at most one worker exists; while the
      context lives, a record whose `Advance` was accepted has a worker with a
      claim ahead of it; and when no worker runs and nothing drains, every record
      left has its `Advance` to come or was abandoned, so that all of them have
      one to come exactly when none was abandoned. */
  lemma NoLostWakeup<K(!new)>(ss: seq<State<K>>, ms: seq<Move<K>>, i: nat)
    requires IsWakeRun(ss, ms) && i < |ss|
    ensures |ss[i].workers| <= 1
    ensures ss[i].live ==> forall k :: k in ss[i].records && k in ss[i].heard ==>
              |ss[i].workers| == 1 && WillClaim(ss[i], ss[i].workers[0])
    ensures ss[i].live && ss[i].workers == [] && !ss[i].flags.draining ==>
              && ss[i].records <= ss[i].owed + ss[i].abandoned
              && (ss[i].records <= ss[i].owed <==> ss[i].records !! ss[i].abandoned)
  {
    var s := ss[i];
    WakeRunKeeps(ss, ms, i);
    forall k | k in s.records && k in s.heard ensures k in s.records * s.heard {}
    if s.live && s.workers == [] && !s.flags.draining {
      assert s.records * s.heard == {};
      forall k | k in s.records ensures k in s.owed + s.abandoned { assert k !in s.records * s.heard; }
    }
  }

  /** A record without a worker and without an `Advance` to come. */
  predicate Stuck<K(==)>(s: State<K>, k: K) {
    s.live && s.workers == [] && !s.flags.draining && k in s.records && k in s.abandoned
  }

  /** An abandoned record is reached in two moves: written, and its writer gone. */
  lemma AbandonedIsReachable<K(!new)>(k: K) returns (ss: seq<State<K>>, ms: seq<Move<K>>)
    ensures IsWakeRun(ss, ms) && ms == [Begin(k), Abandon(k)] && ss[0].records == {} && Stuck(ss[2], k)
  {
    var a := Started<K>({});
    var b := Moved(a, Begin(k));
    ss, ms := [a, b, Moved(b, Abandon(k))], [Begin(k), Abandon(k)];
  }

  /** Moves that can end it: any later `Advance`, the emergency, a restart; or the
      end of the process. */
  predicate Unsticks<K(==)>(m: Move<K>, k: K) {
    m.Advance? || m == Elsewhere(k) || m.Restart? || m.Drain? || m.Cancel?
  }

  /** Without one of them nobody cleans it up, however long the run goes on. */
  lemma {:induction false} StuckUntilWoken<K(!new)>(ss: seq<State<K>>, ms: seq<Move<K>>, i: nat, j: nat, k: K)
    requires IsWakeRun(ss, ms) && i <= j < |ss| && Stuck(ss[i], k)
    requires forall m :: i <= m < j ==> !Unsticks(ms[m], k)
    ensures Stuck(ss[j], k)
    decreases j
  {
    if i < j {
      StuckUntilWoken(ss, ms, i, j - 1, k);
      assert ss[j] == Moved(ss[j - 1], ms[j - 1]) && !Unsticks(ms[j - 1], k);
    }
  }

  /** A record goes away exactly when its cleanup completes, here or elsewhere. */
  lemma RecordsLeaveWhenDone<K>(s: State<K>, m: Move<K>, k: K)
    requires CanMove(s, m) && k in s.records
    ensures k !in Moved(s, m).records <==> m == Elsewhere(k) || (m.Completes? && s.workers[m.i] == Cleaning(k))
  {
  }

  /** A worker that finds nothing to clean leaves unless it was woken since it last
      looked. */
  lemma QuietWorkerLeaves<K(!new)>(ss: seq<State<K>>, ms: seq<Move<K>>, a: nat, b: nat)
    requires IsWakeRun(ss, ms) && a < b < |ms| && ms[a].Clear? && ms[b].Settle?
    requires forall m :: a < m < b ==> !ms[m].Advance?
    ensures ss[b + 1].workers == []
  {
    StaysQuiet(ss, ms, a, b);
    WakeRunKeeps(ss, ms, b);
    assert ss[b + 1] == Moved(ss[b], ms[b]);
  }

  lemma {:induction false} StaysQuiet<K(!new)>(ss: seq<State<K>>, ms: seq<Move<K>>, a: nat, b: nat)
    requires IsWakeRun(ss, ms) && a < b <= |ms| && ms[a].Clear?
    requires forall m :: a < m < b ==> !ms[m].Advance?
    ensures !ss[b].flags.pending
    decreases b
  {
    assert ss[b] == Moved(ss[b - 1], ms[b - 1]);
    if a < b - 1 { StaysQuiet(ss, ms, a, b - 1); }
  }

  /** A worker leaves of its own accord only when nothing heard is left. */
  lemma ExitMeansDone<K(!new)>(ss: seq<State<K>>, ms: seq<Move<K>>, i: nat)
    requires IsWakeRun(ss, ms) && i < |ms| && ms[i].Settle? && ss[i].live && ss[i + 1].workers == []
    ensures ss[i].records * ss[i].heard == {}
  {
    WakeRunKeeps(ss, ms, i);
    assert ss[i + 1] == Moved(ss[i], ms[i]);
  }
}
