/** The dispatcher's own worker: coalesced wake-ups with a wake channel that cuts
    the retry delay short. Lock sections, channel operations, the drain flag
    outside the lock and crashes interleave freely. */
module Admission {
  import opened Sequences

  /** The fields `Advance` and the worker share; `wake` is the one-place channel. */
  datatype Flags = Flags(advancing: bool, pending: bool, wake: bool, draining: bool)

  /** The lock section of `Advance`: whether it was accepted, whether it starts a worker. */
  function Advanced(f: Flags): (Flags, bool, bool) {
    if f.draining then (f, false, false)
    else if f.advancing then (f.(pending := true, wake := true), true, false)
    else (f.(pending := true, advancing := true), true, true)
  }

  /** The lock section after an admission pass without error: whether the worker goes on. */
  function Settled(f: Flags): (Flags, bool) {
    if f.pending then (f, true) else (f.(advancing := false), false)
  }

  class WakeState {
    var advancing: bool
    var advancePending: bool
    var advanceWake: bool
    var draining: bool

    ghost function Now(): Flags
      reads this
    {
      Flags(advancing, advancePending, advanceWake, draining)
    }

    constructor ()
      ensures Now() == Flags(false, false, false, false)
    {
      advancing, advancePending, advanceWake, draining := false, false, false, false;
    }

    method Advance() returns (accepted: bool, starts: bool)
      modifies this
      ensures (Now(), accepted, starts) == Advanced(old(Now()))
      ensures accepted <==> !old(draining)
      ensures accepted && !starts ==> advanceWake && advancePending
      ensures starts <==> advancing && !old(advancing)
    {
      if draining {
        return false, false;
      }
      advancePending := true;
      if advancing {
        if !advanceWake {
          advanceWake := true;
        }
        return true, false;
      }
      advancing := true;
      return true, true;
    }

    method Settle() returns (again: bool)
      modifies this
      ensures (Now(), again) == Settled(old(Now()))
      ensures again <==> old(advancePending)
      ensures advancing == (old(advancing) && again)
    {
      if advancePending {
        return true;
      }
      advancing := false;
      return false;
    }
  }

  /** Where a worker stands in its loop. */
  datatype Place = Top | Passing | Waiting | Passed | Finishing

  /** `unserved` are the accepted wake-ups after which no pass has begun yet. */
  datatype State<K> = State(flags: Flags, live: bool, workers: seq<Place>, unserved: set<K>)

  datatype Move<K> =
    | Advance(k: K)
    | Drain
    | Cancel            // the advance context ends
    | Begin(i: nat)     // clears `pending` and begins a pass
    | Succeeds(i: nat)
    | Fails(i: nat)     // a transient error; the worker waits
    | Refused(i: nat)   // the pass found the dispatcher draining or its context ended
    | Woken(i: nat)
    | TimedOut(i: nat)
    | Ended(i: nat)     // the context ended during the wait
    | Settle(i: nat)
    | Finish(i: nat)
    | Restart

  predicate At<K>(s: State<K>, i: nat, p: Place) { i < |s.workers| && s.workers[i] == p }

  predicate CanMove<K>(s: State<K>, m: Move<K>) {
    match m
    case Advance(_) => true
    case Drain => true
    case Cancel => true
    case Begin(i) => At(s, i, Top)
    case Succeeds(i) => At(s, i, Passing)
    case Fails(i) => At(s, i, Passing)
    case Refused(i) => At(s, i, Passing) && (s.flags.draining || !s.live)
    case Woken(i) => At(s, i, Waiting) && s.flags.wake
    case TimedOut(i) => At(s, i, Waiting)
    case Ended(i) => At(s, i, Waiting) && !s.live
    case Settle(i) => At(s, i, Passed)
    case Finish(i) => At(s, i, Finishing)
    case Restart => true
  }

  function Moved<K(==)>(s: State<K>, m: Move<K>): State<K>
    requires CanMove(s, m)
  {
    match m
    case Advance(k) =>
      var (flags, accepted, starts) := Advanced(s.flags);
      s.(flags := flags, workers := if starts then s.workers + [Top] else s.workers,
         unserved := if accepted then s.unserved + {k} else s.unserved)
    case Drain => s.(flags := s.flags.(draining := true))
    case Cancel => s.(live := false)
    case Begin(i) => s.(flags := s.flags.(pending := false), workers := s.workers[i := Passing], unserved := {})
    case Succeeds(i) => s.(workers := s.workers[i := Passed])
    case Fails(i) => s.(workers := s.workers[i := Waiting])
    case Refused(i) => s.(workers := s.workers[i := Finishing])
    case Woken(i) => s.(flags := s.flags.(wake := false), workers := s.workers[i := Top])
    case TimedOut(i) => s.(workers := s.workers[i := Top])
    case Ended(i) => s.(workers := s.workers[i := Finishing])
    case Settle(i) =>
      var (flags, again) := Settled(s.flags);
      s.(flags := flags, workers := if again then s.workers[i := Top] else Without(s.workers, i))
    case Finish(i) => s.(flags := s.flags.(advancing := false), workers := Without(s.workers, i))
    case Restart => Started()
  }

  function Started<K>(): State<K> {
    State(Flags(false, false, false, false), true, [], {})
  }

  ghost predicate WakeInv<K>(s: State<K>) {
    && |s.workers| == (if s.flags.advancing then 1 else 0)
    // a worker gives up only when draining or when the context has ended
    && (s.live && !s.flags.draining ==> forall i :: 0 <= i < |s.workers| ==> !s.workers[i].Finishing?)
    && (s.live && !s.flags.draining && s.unserved != {} ==> s.flags.pending && s.flags.advancing)
    // past its beginning, a pass with a wake-up pending has it in the channel too
    && (forall i :: 0 <= i < |s.workers| && !s.workers[i].Top? && s.flags.pending ==> s.flags.wake)
  }

  lemma MoveKeeps<K>(s: State<K>, m: Move<K>)
    requires WakeInv(s) && CanMove(s, m)
    ensures WakeInv(Moved(s, m))
  {
  }

  ghost predicate IsWakeRun<K(!new)>(ss: seq<State<K>>, ms: seq<Move<K>>) {
    && |ss| == |ms| + 1
    && ss[0] == Started()
    && (forall i :: 0 <= i < |ms| ==> CanMove(ss[i], ms[i]) && ss[i + 1] == Moved(ss[i], ms[i]))
  }

  lemma {:induction false} WakeRunKeeps<K(!new)>(ss: seq<State<K>>, ms: seq<Move<K>>, i: nat)
    requires IsWakeRun(ss, ms) && i < |ss|
    ensures WakeInv(ss[i])
  {
    if i > 0 {
      WakeRunKeeps(ss, ms, i - 1);
      MoveKeeps(ss[i - 1], ms[i - 1]);
      assert ss[i] == Moved(ss[i - 1], ms[i - 1]);
    }
  }

  /** In every state of every interleaving at most one worker exists. While the
      context lives and nothing drains, an accepted wake-up that no pass has
      followed yet has a worker that cannot leave before beginning one, and that
      does not sit out its retry delay: the channel holds a wake-up for it. */
  lemma NoLostWakeup<K(!new)>(ss: seq<State<K>>, ms: seq<Move<K>>, i: nat)
    requires IsWakeRun(ss, ms) && i < |ss|
    ensures |ss[i].workers| <= 1
    ensures var s := ss[i];
            s.live && !s.flags.draining && s.unserved != {} ==>
              && |s.workers| == 1 && !s.workers[0].Finishing?
              && (s.workers[0].Passed? ==> Settled(s.flags).1)
              && (s.workers[0].Waiting? ==> CanMove(s, Woken(0)))
  {
    WakeRunKeeps(ss, ms, i);
  }

  /** A worker leaves after a pass unless it was woken since the pass began. */
  lemma QuietWorkerLeaves<K(!new)>(ss: seq<State<K>>, ms: seq<Move<K>>, a: nat, b: nat)
    requires IsWakeRun(ss, ms) && a < b < |ms| && ms[a].Begin? && ms[b].Settle?
    requires forall m :: a < m < b ==> !ms[m].Advance?
    ensures ss[b + 1].workers == []
  {
    StaysQuiet(ss, ms, a, b);
    WakeRunKeeps(ss, ms, b);
    assert ss[b + 1] == Moved(ss[b], ms[b]);
  }

  /** A worker that waits out an error, or is about to try again. */
  predicate Retries<K>(s: State<K>) {
    |s.workers| == 1 && (s.workers[0].Waiting? || s.workers[0].Top?)
  }

  lemma RetryStays<K>(s: State<K>, m: Move<K>)
    requires WakeInv(s) && CanMove(s, m) && Retries(s) && s.live && !m.Begin? && !m.Restart?
    ensures Retries(Moved(s, m))
  {
  }

  lemma FailedPassWaits<K>(s: State<K>, m: Move<K>)
    requires WakeInv(s) && CanMove(s, m) && m.Fails?
    ensures Retries(Moved(s, m))
  {
  }

  lemma NextRetries<K(!new)>(ss: seq<State<K>>, ms: seq<Move<K>>, i: nat)
    requires IsWakeRun(ss, ms) && i < |ms|
    requires ms[i].Fails? || (Retries(ss[i]) && ss[i].live && !ms[i].Begin? && !ms[i].Restart?)
    ensures Retries(ss[i + 1])
  {
    WakeRunKeeps(ss, ms, i);
    assert CanMove(ss[i], ms[i]) && ss[i + 1] == Moved(ss[i], ms[i]);
    if ms[i].Fails? { FailedPassWaits(ss[i], ms[i]); } else { RetryStays(ss[i], ms[i]); }
  }

  /** After a failed pass the worker begins another one before it leaves, as long
      as its context lives. */
  lemma {:induction false} FailedPassIsRetried<K(!new)>(ss: seq<State<K>>, ms: seq<Move<K>>, a: nat, b: nat)
    requires IsWakeRun(ss, ms) && a < b <= |ms| && ms[a].Fails?
    requires forall m :: a < m < b ==> !ms[m].Begin? && !ms[m].Restart? && ss[m].live
    ensures Retries(ss[b])
    decreases b
  {
    if a < b - 1 { FailedPassIsRetried(ss, ms, a, b - 1); }
    NextRetries(ss, ms, b - 1);
  }

  /** Only `Advance` sets the flag and fills the channel. */
  lemma OnlyAdvanceWakes<K>(s: State<K>, m: Move<K>)
    requires CanMove(s, m) && !m.Advance?
    ensures Moved(s, m).flags.pending ==> s.flags.pending && !m.Begin?
    ensures Moved(s, m).flags.wake ==> s.flags.wake && !m.Woken?
  {
  }

  lemma FlagsAfter<K(!new)>(ss: seq<State<K>>, ms: seq<Move<K>>, i: nat)
    requires IsWakeRun(ss, ms) && i < |ms| && !ms[i].Advance?
    ensures ss[i + 1].flags.pending ==> ss[i].flags.pending && !ms[i].Begin?
    ensures ss[i + 1].flags.wake ==> ss[i].flags.wake && !ms[i].Woken?
  {
    assert CanMove(ss[i], ms[i]) && ss[i + 1] == Moved(ss[i], ms[i]);
    OnlyAdvanceWakes(ss[i], ms[i]);
  }

  lemma {:induction false} StaysQuiet<K(!new)>(ss: seq<State<K>>, ms: seq<Move<K>>, a: nat, b: nat)
    requires IsWakeRun(ss, ms) && a < b <= |ms| && ms[a].Begin?
    requires forall m :: a < m < b ==> !ms[m].Advance?
    ensures !ss[b].flags.pending
    decreases b
  {
    if a < b - 1 { StaysQuiet(ss, ms, a, b - 1); }
    FlagsAfter(ss, ms, b - 1);
  }

  /** A wake-up from the channel cuts one delay short, and no second one. */
  lemma {:induction false} WakeIsSpent<K(!new)>(ss: seq<State<K>>, ms: seq<Move<K>>, a: nat, b: nat)
    requires IsWakeRun(ss, ms) && a < b <= |ms| && ms[a].Woken?
    requires forall m :: a < m < b ==> !ms[m].Advance?
    ensures !ss[b].flags.wake
    decreases b
  {
    if a < b - 1 { WakeIsSpent(ss, ms, a, b - 1); }
    FlagsAfter(ss, ms, b - 1);
  }
}
