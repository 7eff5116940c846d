/** The capacity controller: what it measures, asks and reclaims before it lets
    an operation be admitted. */
module Capacity {
  import opened Wrappers

  const U64: nat := 0x1_0000_0000_0000_0000
  const GIB: nat := 1024 * 1024 * 1024

  type u64 = n: nat | n < U64

  /** Multiplication and addition as the source's uint64 computes them. */
  function Mul(a: u64, b: u64): u64 { (a * b) % U64 }

  function Sum(a: u64, b: u64): u64 { (a + b) % U64 }

  function Max(a: u64, b: u64): u64 { if a < b then b else a }

  datatype Policy = Policy(
    softPercent: u64, softMinimum: u64, hardPercent: u64, hardMinimum: u64,
    sweepPercent: u64, sweepMinimum: u64, minimumInodes: u64, throttle: int)

  const DEFAULT: Policy := Policy(20, 20 * GIB, 5, 8 * GIB, 5, 5 * GIB, 10, 30)

  datatype Thresholds = Thresholds(soft: u64, target: u64, hard: u64)

  function ThresholdsOf(p: Policy, total: u64): Thresholds {
    var soft := Max(Mul(total, p.softPercent) / 100, p.softMinimum);
    var hard := Max(Mul(total, p.hardPercent) / 100, p.hardMinimum);
    var sweep := Max(Mul(total, p.sweepPercent) / 100, p.sweepMinimum);
    Thresholds(soft, Sum(soft, sweep), hard)
  }

  /** `floor` is the greater of a percentage of the disk, rounded down, and a minimum. */
  predicate IsFloor(floor: u64, total: u64, percent: u64, minimum: u64) {
    && floor >= minimum && (floor + 1) * 100 > total * percent
    && (floor == minimum || floor * 100 <= total * percent)
  }

  /** As long as the products fit, the floors are what the policy says. */
  lemma FloorsMean(p: Policy, total: u64)
    requires total * p.softPercent < U64 && total * p.hardPercent < U64 && total * p.sweepPercent < U64
    ensures var th := ThresholdsOf(p, total);
            && IsFloor(th.soft, total, p.softPercent, p.softMinimum)
            && IsFloor(th.hard, total, p.hardPercent, p.hardMinimum)
            && exists sweep: u64 :: IsFloor(sweep, total, p.sweepPercent, p.sweepMinimum) && th.target == (th.soft + sweep) % U64
  {
    FloorOf(total, p.softPercent, p.softMinimum);
    FloorOf(total, p.hardPercent, p.hardMinimum);
    FloorOf(total, p.sweepPercent, p.sweepMinimum);
  }

  lemma FloorOf(total: u64, percent: u64, minimum: u64)
    requires total * percent < U64
    ensures IsFloor(Max(Mul(total, percent) / 100, minimum), total, percent, minimum)
  {
    assert Mul(total, percent) == total * percent;
  }

  /** The hard floor asks for no more than the soft one, in both its parts. */
  predicate Ordered(p: Policy) { p.hardPercent <= p.softPercent && p.hardMinimum <= p.softMinimum }

  lemma MulMonotone(total: nat, a: nat, b: nat)
    requires a <= b
    ensures total * a <= total * b
  {
  }

  /** With an ordered policy and no wrap-around of the soft product, hard is at
      most soft. */
  lemma HardBelowSoft(p: Policy, total: u64)
    requires Ordered(p) && total * p.softPercent < U64
    ensures ThresholdsOf(p, total).hard <= ThresholdsOf(p, total).soft
  {
    MulMonotone(total, p.hardPercent, p.softPercent);
    assert Mul(total, p.softPercent) == total * p.softPercent;
    assert Mul(total, p.hardPercent) == total * p.hardPercent;
  }

  /** The default policy is ordered, and its soft product does not wrap on any
      disk under 819 PiB; just above, the order of the floors is lost. */
  lemma DefaultFloors(total: u64)
    ensures total <= (U64 - 1) / 20 ==> ThresholdsOf(DEFAULT, total).hard <= ThresholdsOf(DEFAULT, total).soft
    ensures ThresholdsOf(DEFAULT, (U64 - 1) / 20 + 1).soft < ThresholdsOf(DEFAULT, (U64 - 1) / 20 + 1).hard
  {
  }

  datatype Snapshot = Snapshot(total: u64, free: u64, totalInodes: u64, freeInodes: u64)

  /** What the source is left with when the last measurement fails. */
  const ZERO: Snapshot := Snapshot(0, 0, 0, 0)

  predicate InodePressure(s: Snapshot, minimumPercent: u64) {
    s.totalInodes > 0 && Mul(s.freeInodes, 100) < Mul(s.totalInodes, minimumPercent)
  }

  /** As long as the products fit: the share of free inodes is below the minimum.
      A file system that does not count them is never short. */
  lemma InodesMean(s: Snapshot, minimumPercent: u64)
    requires s.freeInodes * 100 < U64 && s.totalInodes * minimumPercent < U64
    ensures InodePressure(s, minimumPercent) <==>
            s.totalInodes > 0 && s.freeInodes as real / s.totalInodes as real < minimumPercent as real / 100.0
  {
    assert Mul(s.freeInodes, 100) == s.freeInodes * 100 && Mul(s.totalInodes, minimumPercent) == s.totalInodes * minimumPercent;
    if s.totalInodes > 0 { ShareBelow(s.freeInodes, s.totalInodes, minimumPercent); }
  }

  lemma ShareBelow(free: nat, total: nat, percent: nat)
    requires total > 0
    ensures free * 100 < total * percent <==> free as real / total as real < percent as real / 100.0
  {
    var share, whole := free as real / total as real, total as real;
    assert share * whole == free as real;
    assert (free * 100) as real == share * whole * 100.0 && (total * percent) as real == whole * percent as real;
    if share < percent as real / 100.0 { assert share * whole < (percent as real / 100.0) * whole; }
    if share >= percent as real / 100.0 { assert share * whole >= (percent as real / 100.0) * whole; }
  }

  /** What the controller takes from its policy: the floors of a disk of a given
      size, and whether a snapshot is short of inodes. */
  datatype Rules = Rules(floors: u64 -> Thresholds, tight: Snapshot -> bool, throttle: int)

  function RulesOf(p: Policy): Rules {
    Rules((total: u64) => ThresholdsOf(p, total), (s: Snapshot) => InodePressure(s, p.minimumInodes), p.throttle)
  }

  /** Room for another operation: the soft floor and the inode margin. */
  predicate Roomy(r: Rules, th: Thresholds, s: Snapshot) { s.free >= th.soft && !r.tight(s) }

  predicate HardPressure(r: Rules, th: Thresholds, s: Snapshot) { s.free < th.hard || r.tight(s) }

  datatype Trigger = Admission | Periodic | Pressure | Manual

  datatype Health = Healthy | Deferred | Blocked | Emergency | Reclaiming

  /** The backend's answers at the places the controller asks, `None` for an error. */
  datatype Answers = Answers(
    before: Option<Snapshot>, busy: Option<bool>, stopped: bool, busyAfter: Option<bool>,
    now: int, reclaimed: bool, after: Option<Snapshot>,
    stoppedAgain: bool, reclaimedAgain: bool, final: Option<Snapshot>)

  /** The calls made, with the answers that came back. */
  datatype Call =
    | Measured(snapshot: Option<Snapshot>)
    | AskedBusy(busy: Option<bool>)
    | StoppedActive(ok: bool)
    | Reclaimed(ok: bool)

  datatype Log = Start | Then(earlier: Log, call: Call)

  predicate Has(log: Log, call: Call) {
    log.Then? && (log.call == call || Has(log.earlier, call))
  }

  /** The last word on whether the worker is busy. */
  function LastBusy(log: Log): Option<bool> {
    if log.Start? then None
    else if log.call.AskedBusy? then log.call.busy
    else LastBusy(log.earlier)
  }

  /** The last measurement of a round, if it made one. */
  function LastMeasured(log: Log): Option<Option<Snapshot>> {
    if log.Start? then None
    else if log.call.Measured? then Some(log.call.snapshot)
    else LastMeasured(log.earlier)
  }

  /** Every reclaim follows the answer that the worker is not busy. */
  predicate ReclaimsIdle(log: Log) {
    log.Then? ==> ReclaimsIdle(log.earlier) && (log.call.Reclaimed? ==> LastBusy(log.earlier) == Some(false))
  }

  /** Some reclaim was made without any question asked. */
  predicate ReclaimsUnasked(log: Log) {
    log.Then? && (ReclaimsUnasked(log.earlier) || (log.call.Reclaimed? && LastBusy(log.earlier).None?))
  }

  /** The answer is the one the round got there. */
  predicate Given(call: Call, a: Answers) {
    match call
    case Measured(snapshot) => snapshot == a.before || snapshot == a.after || snapshot == a.final
    case AskedBusy(busy) => busy == a.busy || busy == a.busyAfter
    case StoppedActive(ok) => ok == a.stopped || ok == a.stoppedAgain
    case Reclaimed(ok) => ok == a.reclaimed || ok == a.reclaimedAgain
  }

  /** Nothing in the log but what the round was answered. */
  predicate AllGiven(log: Log, a: Answers) {
    log.Then? ==> AllGiven(log.earlier, a) && Given(log.call, a)
  }

  lemma Logged(log: Log, call: Call, a: Answers)
    ensures LastBusy(Then(log, call)) == if call.AskedBusy? then call.busy else LastBusy(log)
    ensures LastMeasured(Then(log, call)) == if call.Measured? then Some(call.snapshot) else LastMeasured(log)
    ensures ReclaimsIdle(Then(log, call)) <==> ReclaimsIdle(log) && (call.Reclaimed? ==> LastBusy(log) == Some(false))
    ensures ReclaimsUnasked(Then(log, call)) <==> ReclaimsUnasked(log) || (call.Reclaimed? && LastBusy(log).None?)
    ensures log.Start? ==> LastBusy(log).None? && ReclaimsIdle(log) && !ReclaimsUnasked(log)
    ensures AllGiven(Start, a) && (AllGiven(Then(log, call), a) <==> AllGiven(log, a) && Given(call, a))
    ensures Has(Then(log, call), call) && forall earlier :: Has(log, earlier) ==> Has(Then(log, call), earlier)
  {
  }

  /** The admission check of a disk between the two floors, which only exists
      when they are out of order: the emergency path is entered without asking. */
  predicate SkipsTheQuestion(r: Rules, trigger: Trigger, a: Answers) {
    && trigger == Admission && a.before.Some? && a.stoppedAgain
    && var th := r.floors(a.before.value.total);
       Roomy(r, th, a.before.value) && a.before.value.free < th.hard
  }

  /** The admission check of a disk without a soft floor that ends on a failed
      measurement: the verdict is then given on a snapshot nobody took. */
  predicate Blind(r: Rules, a: Answers) {
    && a.before.Some? && r.floors(a.before.value.total).soft == 0
    && a.stoppedAgain && a.final.None? && !r.tight(ZERO)
    && var th := r.floors(a.before.value.total);
       if r.tight(a.before.value) then
         && (a.busy == Some(false) || (a.busy == Some(true) && a.stopped && a.busyAfter == Some(false)))
         && a.reclaimed && a.after.Some? && HardPressure(r, th, a.after.value)
       else a.before.value.free < th.hard
  }

  /** What a round leaves behind. `judged` is the snapshot the verdict was given
      on, when it got that far. */
  datatype Round = Round(log: Log, failed: bool, judged: Option<Snapshot>, health: Health, lastPressure: int)

  /** The question whether the worker is busy, and what follows from the answer:
      the log, and how the round ends if it ends there. */
  function Asked(hard: bool, a: Answers, log: Log): (Log, Option<(bool, Health)>) {
    var log1 := Then(log, AskedBusy(a.busy));
    if a.busy.None? then (log1, Some((true, Blocked)))
    else if !a.busy.value then (log1, None)
    else if !hard then (log1, Some((false, Deferred)))
    else
      var log2 := Then(log1, StoppedActive(a.stopped));
      if !a.stopped then (log2, Some((true, Blocked)))
      else
        var log3 := Then(log2, AskedBusy(a.busyAfter));
        (log3, if a.busyAfter == Some(false) then None else Some((true, Blocked)))
  }

  /** Under hard pressure: stop the active operation, and if that worked reclaim
      and measure once more. */
  function Escalated(log: Log, a: Answers): Log {
    var log1 := Then(log, StoppedActive(a.stoppedAgain));
    if a.stoppedAgain then Then(Then(log1, Reclaimed(a.reclaimedAgain)), Measured(a.final)) else log1
  }

  /** What a failed last measurement leaves the source with. */
  function Final(a: Answers): Snapshot {
    if a.final.Some? then a.final.value else ZERO
  }

  /** The end of a round that has measured `after`. */
  function Judged(r: Rules, th: Thresholds, log: Log, after: Snapshot, a: Answers, lastPressure: int): Round {
    var hard := HardPressure(r, th, after);
    var last := if hard && a.stoppedAgain then Final(a) else after;
    var failed := !Roomy(r, th, last);
    Round(if hard then Escalated(log, a) else log, failed, Some(last), if failed then Blocked else Healthy, lastPressure)
  }

  /** The reclaim of a round and the measurement after it. */
  function Reclaims(r: Rules, th: Thresholds, log: Log, a: Answers, health: Health, lastPressure: int): Round {
    var log1 := Then(log, Reclaimed(a.reclaimed));
    if !a.reclaimed then Round(log1, true, None, Blocked, lastPressure)
    else
      var log2 := Then(log1, Measured(a.after));
      if a.after.None? then Round(log2, true, None, health, lastPressure)
      else Judged(r, th, log2, a.after.value, a, lastPressure)
  }

  predicate Throttled(r: Rules, a: Answers, lastPressure: int) {
    r.throttle > 0 && a.now - lastPressure < r.throttle
  }

  /** One maintenance round under the capacity lock. */
  function Rounds(r: Rules, trigger: Trigger, a: Answers, health: Health, lastPressure: int): Round {
    var log := Then(Start, Measured(a.before));
    if a.before.None? then Round(log, true, None, health, lastPressure)
    else
      var th := r.floors(a.before.value.total);
      var roomy := Roomy(r, th, a.before.value);
      if roomy && trigger == Pressure then Round(log, false, None, Healthy, lastPressure)
      else if roomy && trigger == Admission then Judged(r, th, log, a.before.value, a, lastPressure)
      else
        var (log1, end) := Asked(HardPressure(r, th, a.before.value), a, log);
        if end.Some? then Round(log1, end.value.0, None, end.value.1, lastPressure)
        else if trigger != Pressure then Reclaims(r, th, log1, a, health, lastPressure)
        else if Throttled(r, a, lastPressure) then Round(log1, false, None, Reclaiming, lastPressure)
        else Reclaims(r, th, log1, a, health, a.now)
  }

  // ------------------------------------------------------ what a round promises

  lemma EscalatedLog(log: Log, a: Answers)
    ensures LastBusy(Escalated(log, a)) == LastBusy(log)
    ensures ReclaimsIdle(Escalated(log, a)) <==> ReclaimsIdle(log) && (a.stoppedAgain ==> LastBusy(log) == Some(false))
    ensures ReclaimsUnasked(Escalated(log, a)) <==> ReclaimsUnasked(log) || (a.stoppedAgain && LastBusy(log).None?)
    ensures AllGiven(log, a) ==> AllGiven(Escalated(log, a), a)
    ensures forall call :: Has(log, call) ==> Has(Escalated(log, a), call)
    ensures a.stoppedAgain ==> Has(Escalated(log, a), Measured(a.final)) && LastMeasured(Escalated(log, a)) == Some(a.final)
    ensures !a.stoppedAgain ==> LastMeasured(Escalated(log, a)) == LastMeasured(log)
  {
    var log1 := Then(log, StoppedActive(a.stoppedAgain));
    var log2 := Then(log1, Reclaimed(a.reclaimedAgain));
    Logged(log, StoppedActive(a.stoppedAgain), a);
    Logged(log1, Reclaimed(a.reclaimedAgain), a);
    Logged(log2, Measured(a.final), a);
  }

  /** The questions of a round are about its own answers, and it goes on only with
      an idle worker. */
  lemma AskedLog(hard: bool, a: Answers, log: Log)
    requires log == Then(Start, Measured(a.before))
    ensures var (log1, end) := Asked(hard, a, log);
            && ReclaimsIdle(log1) && !ReclaimsUnasked(log1) && AllGiven(log1, a)
            && Has(log1, Measured(a.before)) && Has(log1, AskedBusy(a.busy)) && LastMeasured(log1) == Some(a.before)
            && (end.None? ==> LastBusy(log1) == Some(false))
            && (end.Some? && end.value.0 ==> log1.Then? && Bad(log1.call))
  {
    Logged(Start, Measured(a.before), a);
    var log1 := Then(log, AskedBusy(a.busy));
    var log2 := Then(log1, StoppedActive(a.stopped));
    Logged(log, AskedBusy(a.busy), a);
    Logged(log1, StoppedActive(a.stopped), a);
    Logged(log2, AskedBusy(a.busyAfter), a);
  }

  /** An answer that stops a round. */
  predicate Bad(call: Call) {
    match call
    case Measured(snapshot) => snapshot.None?
    case AskedBusy(busy) => busy != Some(false)
    case StoppedActive(ok) => !ok
    case Reclaimed(ok) => !ok
  }

  /** The end of a round is judged on its last measurement. */
  lemma JudgedLog(r: Rules, th: Thresholds, log: Log, after: Snapshot, a: Answers, lastPressure: int)
    requires AllGiven(log, a) && LastMeasured(log) == Some(Some(after)) && Has(log, Measured(Some(after)))
    ensures var x := Judged(r, th, log, after, a, lastPressure);
            && AllGiven(x.log, a) && x.judged.Some? && JudgedOn(x.log, x.judged.value)
            && (forall call :: Has(log, call) ==> Has(x.log, call))
            && (HardPressure(r, th, after) && a.stoppedAgain ==> Has(x.log, Measured(a.final)))
  {
    EscalatedLog(log, a);
  }

  /** The verdict is given on the last measurement, or on the zero snapshot if
      that one failed. */
  predicate JudgedOn(log: Log, judged: Snapshot) {
    var last := LastMeasured(log);
    last.Some? && judged == if last.value.Some? then last.value.value else ZERO
  }

  lemma ReclaimsLog(r: Rules, th: Thresholds, log: Log, a: Answers, health: Health, lastPressure: int)
    requires AllGiven(log, a)
    ensures var x := Reclaims(r, th, log, a, health, lastPressure);
            && AllGiven(x.log, a) && Has(x.log, Reclaimed(a.reclaimed))
            && (forall call :: Has(log, call) ==> Has(x.log, call))
            && (x.judged.Some? ==> JudgedOn(x.log, x.judged.value))
            && (x.judged.None? ==> x.log.Then? && Bad(x.log.call))
  {
    var log1 := Then(log, Reclaimed(a.reclaimed));
    Logged(log, Reclaimed(a.reclaimed), a);
    Logged(log1, Measured(a.after), a);
    if a.reclaimed && a.after.Some? { JudgedLog(r, th, Then(log1, Measured(a.after)), a.after.value, a, lastPressure); }
  }

  lemma JudgedAsks(r: Rules, th: Thresholds, log: Log, after: Snapshot, a: Answers, lastPressure: int)
    ensures var x := Judged(r, th, log, after, a, lastPressure); var again := HardPressure(r, th, after) && a.stoppedAgain;
            && (ReclaimsIdle(x.log) <==> ReclaimsIdle(log) && (again ==> LastBusy(log) == Some(false)))
            && (ReclaimsUnasked(x.log) <==> ReclaimsUnasked(log) || (again && LastBusy(log).None?))
  {
    EscalatedLog(log, a);
  }

  lemma ReclaimsAsk(r: Rules, th: Thresholds, log: Log, a: Answers, health: Health, lastPressure: int)
    requires ReclaimsIdle(log) && !ReclaimsUnasked(log) && LastBusy(log) == Some(false)
    ensures var x := Reclaims(r, th, log, a, health, lastPressure); ReclaimsIdle(x.log) && !ReclaimsUnasked(x.log)
  {
    var log1 := Then(log, Reclaimed(a.reclaimed));
    Logged(log, Reclaimed(a.reclaimed), a);
    Logged(log1, Measured(a.after), a);
    if a.reclaimed && a.after.Some? { JudgedAsks(r, th, Then(log1, Measured(a.after)), a.after.value, a, lastPressure); }
  }

  /** No reclaim while the worker may be busy, unless the question was skipped. */
  lemma ReclaimsAfterAsking(r: Rules, trigger: Trigger, a: Answers, health: Health, lastPressure: int)
    ensures var x := Rounds(r, trigger, a, health, lastPressure);
            && (ReclaimsIdle(x.log) <==> !SkipsTheQuestion(r, trigger, a))
            && (ReclaimsUnasked(x.log) <==> SkipsTheQuestion(r, trigger, a))
  {
    var log := Then(Start, Measured(a.before));
    Logged(Start, Measured(a.before), a);
    if a.before.Some? {
      var th := r.floors(a.before.value.total);
      var hard := HardPressure(r, th, a.before.value);
      AskedLog(hard, a, log);
      var (log1, end) := Asked(hard, a, log);
      JudgedAsks(r, th, log, a.before.value, a, lastPressure);
      if end.None? {
        ReclaimsAsk(r, th, log1, a, health, lastPressure);
        ReclaimsAsk(r, th, log1, a, health, a.now);
      }
    }
  }

  /** The log holds the round's own answers and no others; a verdict is given on
      the last measurement; and without one the round ends on a bad answer, or
      without failing. */
  lemma VerdictHasGrounds(r: Rules, trigger: Trigger, a: Answers, health: Health, lastPressure: int)
    ensures var x := Rounds(r, trigger, a, health, lastPressure);
            && AllGiven(x.log, a) && Has(x.log, Measured(a.before))
            && (x.judged.Some? ==> JudgedOn(x.log, x.judged.value))
            && (x.failed && x.judged.None? ==> x.log.Then? && Bad(x.log.call))
  {
    var log := Then(Start, Measured(a.before));
    Logged(Start, Measured(a.before), a);
    if a.before.Some? {
      var th := r.floors(a.before.value.total);
      var hard := HardPressure(r, th, a.before.value);
      AskedLog(hard, a, log);
      var (log1, end) := Asked(hard, a, log);
      JudgedLog(r, th, log, a.before.value, a, lastPressure);
      ReclaimsLog(r, th, log1, a, health, lastPressure);
      ReclaimsLog(r, th, log1, a, health, a.now);
    }
  }

  /** A verdict fails exactly when the snapshot it was given on has no room, and
      shows as blocked or healthy. Without a verdict, a round that does not fail
      was put off for a busy worker above the hard floor, or was a pressure round. */
  lemma VerdictIsRoom(r: Rules, trigger: Trigger, a: Answers, health: Health, lastPressure: int)
    ensures var x := Rounds(r, trigger, a, health, lastPressure);
            && (x.judged.Some? ==>
                  && a.before.Some? && (x.failed <==> !Roomy(r, r.floors(a.before.value.total), x.judged.value))
                  && x.health == if x.failed then Blocked else Healthy)
            && (!x.failed && x.judged.None? && trigger != Pressure ==>
                  && a.before.Some? && a.busy == Some(true) && x.health == Deferred
                  && !HardPressure(r, r.floors(a.before.value.total), a.before.value))
  {
  }

  /** A round that reclaims does so whenever the worker is idle and room is short,
      or the round was asked for; a busy worker above the hard floor puts it off. */
  lemma ReclaimsWhenIdle(r: Rules, trigger: Trigger, a: Answers, health: Health, lastPressure: int)
    requires a.before.Some? && (trigger == Pressure || trigger == Admission ==> !Roomy(r, r.floors(a.before.value.total), a.before.value))
    ensures var x := Rounds(r, trigger, a, health, lastPressure);
            && (a.busy == Some(false) && !(trigger == Pressure && Throttled(r, a, lastPressure)) ==> Has(x.log, Reclaimed(a.reclaimed)))
            && (a.busy == Some(true) && !HardPressure(r, r.floors(a.before.value.total), a.before.value) ==>
                  !x.failed && x.judged.None? && x.health == Deferred)
  {
    var log := Then(Start, Measured(a.before));
    Logged(Start, Measured(a.before), a);
    var th := r.floors(a.before.value.total);
    var hard := HardPressure(r, th, a.before.value);
    AskedLog(hard, a, log);
    var (log1, end) := Asked(hard, a, log);
    ReclaimsLog(r, th, log1, a, health, lastPressure);
    ReclaimsLog(r, th, log1, a, health, a.now);
  }

  /** A pressure round on an idle worker is cut short exactly when the last one was
      less than the throttle ago, and leaves its mark otherwise. */
  lemma PressureIsThrottled(r: Rules, trigger: Trigger, a: Answers, health: Health, lastPressure: int)
    ensures var x := Rounds(r, trigger, a, health, lastPressure);
            && (trigger != Pressure ==> x.lastPressure == lastPressure)
            && (trigger == Pressure && a.before.Some? && !Roomy(r, r.floors(a.before.value.total), a.before.value) && a.busy == Some(false) ==>
                  if a.now < lastPressure + r.throttle && r.throttle > 0
                  then x.lastPressure == lastPressure && x.health == Reclaiming && !x.failed && x.judged.None?
                  else x.lastPressure == a.now && (x.judged.Some? || x.failed))
  {
  }

  /** The worker is idle, or was stopped and then idle. */
  predicate Freed(a: Answers) {
    a.busy == Some(false) || (a.busy == Some(true) && a.stopped && a.busyAfter == Some(false))
  }

  /** Room at the end of a round that has measured `after`. */
  predicate EndsRoomy(r: Rules, th: Thresholds, after: Snapshot, a: Answers) {
    Roomy(r, th, if HardPressure(r, th, after) && a.stoppedAgain then Final(a) else after)
  }

  /** When an operation may be reserved: there is room; or a busy worker is above
      the hard floor; or the worker is free and the reclaim has made room. */
  predicate Admissible(r: Rules, a: Answers) {
    && a.before.Some?
    && var th := r.floors(a.before.value.total);
       || (Roomy(r, th, a.before.value) && EndsRoomy(r, th, a.before.value, a))
       || (!Roomy(r, th, a.before.value) && a.busy == Some(true) && !HardPressure(r, th, a.before.value))
       || (!Roomy(r, th, a.before.value) && Freed(a) && a.reclaimed && a.after.Some? && EndsRoomy(r, th, a.after.value, a))
  }

  lemma AdmitsExactly(r: Rules, a: Answers, health: Health, lastPressure: int)
    ensures !Rounds(r, Admission, a, health, lastPressure).failed <==> Admissible(r, a)
  {
  }

  /** A disk with room and no hard pressure is admitted on its first measurement. */
  lemma RoomIsEnough(r: Rules, a: Answers, health: Health, lastPressure: int)
    requires a.before.Some?
    requires var th := r.floors(a.before.value.total); Roomy(r, th, a.before.value) && !HardPressure(r, th, a.before.value)
    ensures Rounds(r, Admission, a, health, lastPressure) == Round(Then(Start, Measured(a.before)), false, a.before, Healthy, lastPressure)
  {
  }

  /** A blind admission is one on the zero snapshot after a failed measurement. */
  lemma BlindIsAdmitted(r: Rules, a: Answers, health: Health, lastPressure: int)
    requires Blind(r, a)
    ensures var x := Rounds(r, Admission, a, health, lastPressure);
            !x.failed && x.judged == Some(ZERO) && x.log.Then? && x.log.call == Measured(None)
  {
  }

  class Controller {
    const rules: Rules
    var health: Health
    var lastPressure: int

    constructor (p: Policy)
      ensures rules == RulesOf(p)
    {
      rules, health, lastPressure := RulesOf(p), Healthy, 0;
    }

    /** One maintenance round under the capacity lock, proved to be `Rounds`. */
    method RunLocked(trigger: Trigger, a: Answers) returns (log: Log, failed: bool, judged: Option<Snapshot>)
      modifies this
      ensures Round(log, failed, judged, health, lastPressure) == Rounds(rules, trigger, a, old(health), old(lastPressure))
    {
      log, judged := Then(Start, Measured(a.before)), None;
      if a.before.None? {
        return log, true, None;
      }
      var before := a.before.value;
      var th := rules.floors(before.total);
      var pressure := before.free < th.soft || rules.tight(before);
      if trigger == Pressure && !pressure {
        health := Healthy;
        return log, false, None;
      }
      var needsReclaim := pressure || trigger != Admission;
      if needsReclaim {
        log := Then(log, AskedBusy(a.busy));
        if a.busy.None? {
          health := Blocked;
          return log, true, None;
        }
        if a.busy.value && !HardPressure(rules, th, before) {
          health := Deferred;
          return log, false, None;
        }
        if a.busy.value {
          log := Then(log, StoppedActive(a.stopped));
          if !a.stopped {
            health := Blocked;
            return log, true, None;
          }
          log := Then(log, AskedBusy(a.busyAfter));
          if a.busyAfter != Some(false) {
            health := Blocked;
            return log, true, None;
          }
        }
      }
      if trigger == Pressure {
        if rules.throttle > 0 && a.now - lastPressure < rules.throttle {
          health := Reclaiming;
          return log, false, None;
        }
        lastPressure := a.now;
      }
      var after := before;
      if needsReclaim {
        log := Then(log, Reclaimed(a.reclaimed));
        if !a.reclaimed {
          health := Blocked;
          return log, true, None;
        }
        log := Then(log, Measured(a.after));
        if a.after.None? {
          return log, true, None;
        }
        after := a.after.value;
      }
      if HardPressure(rules, th, after) {
        log := Then(log, StoppedActive(a.stoppedAgain));
        if a.stoppedAgain {
          log := Then(log, Reclaimed(a.reclaimedAgain));
          log := Then(log, Measured(a.final));
          after := if a.final.Some? then a.final.value else ZERO;
        }
      }
      judged := Some(after);
      failed := !Roomy(rules, th, after);
      health := if failed then Blocked else Healthy;
    }

    /** `Admit` runs the round and then, if it raised no error, the reservation. */
    method Admit(a: Answers) returns (log: Log, reserves: bool, judged: Option<Snapshot>)
      modifies this
      ensures reserves <==> Admissible(rules, a)
      ensures ReclaimsIdle(log) <==> !SkipsTheQuestion(rules, Admission, a)
      ensures AllGiven(log, a) && Has(log, Measured(a.before))
      ensures judged.Some? ==> a.before.Some? && JudgedOn(log, judged.value) && (reserves <==> Roomy(rules, rules.floors(a.before.value.total), judged.value))
      ensures reserves && judged.None? ==> a.busy == Some(true) && Has(log, AskedBusy(Some(true)))
      ensures Blind(rules, a) ==> reserves && judged == Some(ZERO) && log.Then? && log.call == Measured(None)
      ensures reserves && judged.Some? && !Blind(rules, a) ==> Has(log, Measured(judged))
    {
      ghost var health0, pressure0 := health, lastPressure;
      var failed;
      log, failed, judged := RunLocked(Admission, a);
      reserves := !failed;
      AdmitsExactly(rules, a, health0, pressure0);
      ReclaimsAfterAsking(rules, Admission, a, health0, pressure0);
      VerdictHasGrounds(rules, Admission, a, health0, pressure0);
      VerdictIsRoom(rules, Admission, a, health0, pressure0);
      AdmissionHasGrounds(rules, a, health0, pressure0);
      if Blind(rules, a) { BlindIsAdmitted(rules, a, health0, pressure0); }
    }
  }

  /** An admission without a verdict has heard that the worker is busy; one on a
      snapshot nobody took is blind. */
  lemma AdmissionHasGrounds(r: Rules, a: Answers, health: Health, lastPressure: int)
    ensures var x := Rounds(r, Admission, a, health, lastPressure);
            && (!x.failed && x.judged.None? ==> a.busy == Some(true) && Has(x.log, AskedBusy(Some(true))))
            && (!x.failed && x.judged.Some? && !Blind(r, a) ==> Has(x.log, Measured(x.judged)))
  {
    var log := Then(Start, Measured(a.before));
    Logged(Start, Measured(a.before), a);
    if a.before.Some? {
      var th := r.floors(a.before.value.total);
      var hard := HardPressure(r, th, a.before.value);
      AskedLog(hard, a, log);
      var (log1, end) := Asked(hard, a, log);
      JudgedLog(r, th, log, a.before.value, a, lastPressure);
      ReclaimsGrounds(r, th, log1, a, health, lastPressure);
    }
  }

  lemma ReclaimsGrounds(r: Rules, th: Thresholds, log: Log, a: Answers, health: Health, lastPressure: int)
    requires AllGiven(log, a)
    ensures var x := Reclaims(r, th, log, a, health, lastPressure);
            x.judged.Some? ==>
              && a.after.Some?
              && Has(x.log, if HardPressure(r, th, a.after.value) && a.stoppedAgain then Measured(a.final) else Measured(a.after))
  {
    var log1 := Then(log, Reclaimed(a.reclaimed));
    Logged(log, Reclaimed(a.reclaimed), a);
    Logged(log1, Measured(a.after), a);
    if a.reclaimed && a.after.Some? { JudgedLog(r, th, Then(log1, Measured(a.after)), a.after.value, a, lastPressure); }
  }

  /** The question is skipped for some answers exactly when the floors are out
      of order for that disk: `soft` is below `hard`. */
  lemma SkippedOnlyOutOfOrder(p: Policy, total: u64)
    ensures (exists a: Answers :: a.before.Some? && a.before.value.total == total && SkipsTheQuestion(RulesOf(p), Admission, a))
       <==> ThresholdsOf(p, total).soft < ThresholdsOf(p, total).hard
  {
    var th := ThresholdsOf(p, total);
    if th.soft < th.hard {
      var a := Answers(Some(Snapshot(total, th.soft, 0, 0)), None, false, None, 0, false, None, true, false, None);
      assert SkipsTheQuestion(RulesOf(p), Admission, a);
    }
  }

  /** So with an ordered policy and no wrap-around it is never skipped. */
  lemma NeverSkipped(p: Policy, trigger: Trigger, a: Answers)
    requires Ordered(p) && (a.before.Some? ==> a.before.value.total * p.softPercent < U64)
    ensures !SkipsTheQuestion(RulesOf(p), trigger, a)
  {
    if a.before.Some? { HardBelowSoft(p, a.before.value.total); }
  }

  /** A blind admission exists for a disk exactly when its soft floor is zero
      and it can still be under hard pressure: with a hard floor or an inode margin. */
  lemma BlindExactly(p: Policy, total: u64)
    ensures (exists a: Answers :: a.before.Some? && a.before.value.total == total && Blind(RulesOf(p), a))
       <==> ThresholdsOf(p, total).soft == 0 && (ThresholdsOf(p, total).hard > 0 || p.minimumInodes > 0)
  {
    var th := ThresholdsOf(p, total);
    if p.minimumInodes == 0 {
      forall s: Snapshot ensures !InodePressure(s, p.minimumInodes) { NeverTight(s); }
    }
    if th.soft == 0 && th.hard > 0 {
      var a := Answers(Some(Snapshot(total, 0, 0, 0)), None, false, None, 0, false, None, true, false, None);
      assert Blind(RulesOf(p), a);
    } else if th.soft == 0 && p.minimumInodes > 0 {
      var tight := Snapshot(total, 0, 1, 0);
      OneInode(total, p.minimumInodes);
      var a := Answers(Some(tight), Some(false), false, None, 0, true, Some(tight), true, false, None);
      assert Blind(RulesOf(p), a);
    }
  }

  lemma NeverTight(s: Snapshot)
    ensures !InodePressure(s, 0)
  {
  }

  lemma OneInode(total: u64, minimumPercent: u64)
    requires minimumPercent > 0
    ensures InodePressure(Snapshot(total, 0, 1, 0), minimumPercent)
  {
    assert Mul(1, minimumPercent) == minimumPercent;
  }
}
