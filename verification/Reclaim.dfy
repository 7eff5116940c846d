/** The capacity round and the runs of the control plane together: no operation
    is admitting or active at any reclaim. */
module Reclaim {
  import opened Wrappers
  import opened Control
  import opened Protocol
  import opened Runs
  import opened Capacity

  function Length(log: Log): nat {
    if log.Start? then 0 else Length(log.earlier) + 1
  }

  function CallAt(log: Log, i: nat): Call
    requires i < Length(log)
  {
    if i == Length(log.earlier) then log.call else CallAt(log.earlier, i)
  }

  /** When each call of the round was made, as positions of the run: in order,
      inside the run, and each answer about the worker true when it was given. */
  ghost predicate Happens(log: Log, at: seq<nat>, ss: seq<Sys>) {
    && |at| == Length(log)
    && (forall i, j :: 0 <= i <= j < |at| ==> at[i] <= at[j] < |ss|)
    && (forall i :: 0 <= i < |at| && CallAt(log, i).AskedBusy? && CallAt(log, i).busy.Some? ==>
          CallAt(log, i).busy.value == AnyIn(ss[at[i]].db.queue, RESERVED))
  }

  /** The last answer about the worker before call `i`. */
  lemma {:induction false} LastAnswer(log: Log, i: nat) returns (j: nat)
    requires ReclaimsIdle(log) && i < Length(log) && CallAt(log, i).Reclaimed?
    ensures j < i && CallAt(log, j) == AskedBusy(Some(false))
  {
    if i == Length(log.earlier) {
      j := AnswerAt(log.earlier);
    } else {
      j := LastAnswer(log.earlier, i);
    }
  }

  lemma {:induction false} AnswerAt(log: Log) returns (j: nat)
    requires LastBusy(log).Some?
    ensures j < Length(log) && CallAt(log, j) == AskedBusy(LastBusy(log))
  {
    if log.call.AskedBusy? {
      j := Length(log.earlier);
    } else {
      j := AnswerAt(log.earlier);
    }
  }

  /** Over every run: when the round holds the capacity lock, so that nothing is
      acquired while it lasts, and asks before it reclaims, no operation is
      admitting or active at any of its reclaims. */
  lemma ReclaimsFindIdleWorker(ss: seq<Sys>, acts: seq<Action>, log: Log, at: seq<nat>, i: nat)
    requires IsRun(ss, acts) && Happens(log, at, ss) && ReclaimsIdle(log)
    requires i < Length(log) && CallAt(log, i).Reclaimed?
    requires forall m :: at[0] <= m < at[|at| - 1] ==> !acts[m].Acquire?
    ensures !AnyIn(ss[at[i]].db.queue, EXECUTING)
  {
    var j := LastAnswer(log, i);
    assert at[0] <= at[j] <= at[i] <= at[|at| - 1];
    ReclaimExcludesExecution(ss, acts, at[j], at[i]);
  }
}
