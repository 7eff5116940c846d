/** Worker telemetry: raw samples, per-minute roll-ups and per-operation summaries. */
module Rollup {
  import opened Wrappers

  const MINUTE: int := 60_000_000_000

  /** A Go time: the zero time is no instant. */
  datatype Time = Zero | At(nanos: int)

  datatype Float = Finite(value: real) | NaN | Infinite

  datatype Sample = Sample(
    observedAt: Time, project: string, kind: string, operation: string,
    cpu: Float, cores: int, memory: Float, memoryUsed: nat, memoryTotal: nat,
    diskUsed: nat, diskTotal: nat, inodesUsed: nat, inodesTotal: nat,
    cpuPressure: Float, memoryPressure: Float, memoryFullPressure: Float, ioPressure: Float, ioFullPressure: Float,
    memoryHighEvents: nat, oomEvents: nat, oomKills: nat, pids: nat, pidsLimit: nat)

  predicate ValidRatio(x: Float) {
    x.Finite? && 0.0 <= x.value <= 1.0
  }

  predicate ValidSample(s: Sample) {
    && s.observedAt.At?
    && s.cores >= 1 && s.memoryTotal != 0 && s.memoryUsed <= s.memoryTotal
    && s.diskUsed <= s.diskTotal && s.inodesUsed <= s.inodesTotal
    && ValidRatio(s.cpu) && ValidRatio(s.memory) && ValidRatio(s.cpuPressure) && ValidRatio(s.memoryPressure)
    && ValidRatio(s.memoryFullPressure) && ValidRatio(s.ioPressure) && ValidRatio(s.ioFullPressure)
    && (s.operation == "" <==> s.kind == "")
    && (s.operation != "" ==> s.project != "")
  }

  /** A stored sample: the columns that roll-ups and summaries are made of, and
      the whole of what was reported. */
  datatype Point = Point(
    at: int, project: string, kind: string, operation: string, cpu: real, memory: real, memoryUsed: nat,
    diskUsed: nat, diskTotal: nat, cores: int, reported: Sample)

  function Stored(s: Sample): Point
    requires ValidSample(s)
  {
    Point(s.observedAt.nanos, s.project, s.kind, s.operation, s.cpu.value, s.memory.value, s.memoryUsed,
          s.diskUsed, s.diskTotal, s.cores, s)
  }

  /** SQLite's integer division truncates toward zero. */
  function Truncated(a: int, b: int): int
    requires b > 0
  {
    if a >= 0 then a / b else -((-a) / b)
  }

  /** What samples are added up by: a minute of one operation's (or nobody's)
      use in one project, or an operation's whole life. */
  datatype Group =
    | Minute(at: int, project: string, kind: string, operation: string)
    | Operation(kind: string, operation: string)

  function BucketAt(nanos: int): int {
    Truncated(nanos, MINUTE) * MINUTE
  }

  function BucketOf(s: Point): Group {
    Minute(BucketAt(s.at), s.project, s.kind, s.operation)
  }

  predicate Within(s: Point, g: Group) {
    match g
    case Minute(_, _, _, _) => BucketOf(s) == g
    case Operation(kind, operation) => s.kind == kind && s.operation == operation
  }

  /** A bucket is a whole minute, and two times of the same sign share one exactly
      when no whole minute separates them. */
  lemma BucketIsMinute(nanos: int, other: int)
    ensures BucketAt(nanos) % MINUTE == 0
    ensures nanos >= 0 ==> BucketAt(nanos) <= nanos < BucketAt(nanos) + MINUTE
    ensures nanos < 0 ==> BucketAt(nanos) - MINUTE < nanos <= BucketAt(nanos)
    ensures (nanos >= 0 <==> other >= 0) ==> (BucketAt(nanos) == BucketAt(other) <==> SameMinute(nanos, other))
  {
  }

  /** The minutes of times before the epoch end at their whole minute. */
  predicate SameMinute(a: int, b: int) {
    if a >= 0 then a / MINUTE == b / MINUTE else (-a) / MINUTE == (-b) / MINUTE
  }

  /** A sample lands in a bucket that starts less than a minute before it. */
  lemma BucketIsRecent(nanos: int)
    ensures nanos - MINUTE < BucketAt(nanos)
  {
  }

  datatype Totals = Totals(count: nat, cpuSum: real, cpuPeak: real, memorySum: real, memoryPeak: real, bytesPeak: nat)

  function MaxReal(a: real, b: real): real {
    if a < b then b else a
  }

  function MaxInt(a: int, b: int): int {
    if a < b then b else a
  }

  function Merge(a: Totals, b: Totals): Totals {
    Totals(a.count + b.count, a.cpuSum + b.cpuSum, MaxReal(a.cpuPeak, b.cpuPeak),
           a.memorySum + b.memorySum, MaxReal(a.memoryPeak, b.memoryPeak), MaxInt(a.bytesPeak, b.bytesPeak))
  }

  function One(s: Point): Totals {
    Totals(1, s.cpu, s.cpu, s.memory, s.memory, s.memoryUsed)
  }

  /** An insert that merges on conflict: no row counts for nothing. */
  function Plus(a: Option<Totals>, b: Option<Totals>): Option<Totals> {
    if a.None? then b else if b.None? then a else Some(Merge(a.value, b.value))
  }

  lemma PlusAssociative(a: Option<Totals>, b: Option<Totals>, c: Option<Totals>)
    ensures Plus(a, Plus(b, c)) == Plus(Plus(a, b), c)
  {
  }

  lemma PlusCommutative(a: Option<Totals>, b: Option<Totals>)
    ensures Plus(a, b) == Plus(b, a)
  {
  }

  function Of(s: Point, g: Group): Option<Totals> {
    if Within(s, g) then Some(One(s)) else None
  }

  /** The totals of a group's samples, if it has any. */
  function Total(samples: seq<Point>, g: Group): Option<Totals> {
    if samples == [] then None else Plus(Total(samples[..|samples| - 1], g), Of(samples[|samples| - 1], g))
  }

  lemma TotalMore(samples: seq<Point>, s: Point, g: Group)
    ensures Total(samples + [s], g) == Plus(Total(samples, g), Of(s, g))
  {
  }

  /** The peaks are the greatest values among the group's samples: no less than
      any of them and attained. */
  ghost predicate Greatest(samples: seq<Point>, g: Group, value: Point -> real, peak: real) {
    && (forall i :: 0 <= i < |samples| && Within(samples[i], g) ==> value(samples[i]) <= peak)
    && (exists i :: 0 <= i < |samples| && Within(samples[i], g) && value(samples[i]) == peak)
  }

  lemma GreatestMore(samples: seq<Point>, s: Point, g: Group, value: Point -> real, peak: real)
    requires Greatest(samples, g, value, peak)
    ensures Greatest(samples + [s], g, value, if Within(s, g) then MaxReal(peak, value(s)) else peak)
  {
    var more := samples + [s];
    var i :| 0 <= i < |samples| && Within(samples[i], g) && value(samples[i]) == peak;
    assert more[i] == samples[i] && more[|samples|] == s;
  }

  lemma GreatestFirst(samples: seq<Point>, s: Point, g: Group, value: Point -> real)
    requires Total(samples, g).None? && Within(s, g)
    ensures Greatest(samples + [s], g, value, value(s))
  {
    var more := samples + [s];
    forall i | 0 <= i < |samples| ensures !Within(more[i], g) {
      EmptyGroup(samples, g, i);
    }
    assert more[|samples|] == s;
  }

  lemma {:induction false} PeaksAreGreatest(samples: seq<Point>, g: Group)
    requires Total(samples, g).Some?
    ensures Greatest(samples, g, (p: Point) => p.cpu, Total(samples, g).value.cpuPeak)
    ensures Greatest(samples, g, (p: Point) => p.memory, Total(samples, g).value.memoryPeak)
    ensures Greatest(samples, g, (p: Point) => p.memoryUsed as real, Total(samples, g).value.bytesPeak as real)
  {
    var front, last := samples[..|samples| - 1], samples[|samples| - 1];
    var cpu, memory, used := (p: Point) => p.cpu, (p: Point) => p.memory, (p: Point) => p.memoryUsed as real;
    assert samples == front + [last];
    if Total(front, g).Some? {
      PeaksAreGreatest(front, g);
      var was := Total(front, g).value;
      GreatestMore(front, last, g, cpu, was.cpuPeak);
      GreatestMore(front, last, g, memory, was.memoryPeak);
      GreatestMore(front, last, g, used, was.bytesPeak as real);
    } else {
      GreatestFirst(front, last, g, cpu);
      GreatestFirst(front, last, g, memory);
      GreatestFirst(front, last, g, used);
    }
  }

  function Older(samples: seq<Point>, before: int): (r: seq<Point>)
    ensures forall x :: x in r <==> x in samples && x.at < before
  {
    if samples == [] then []
    else Older(samples[..|samples| - 1], before) +
         (if samples[|samples| - 1].at < before then [samples[|samples| - 1]] else [])
  }

  function Newer(samples: seq<Point>, before: int): (r: seq<Point>)
    ensures forall x :: x in r <==> x in samples && x.at >= before
  {
    if samples == [] then []
    else Newer(samples[..|samples| - 1], before) +
         (if samples[|samples| - 1].at < before then [] else [samples[|samples| - 1]])
  }

  /** Wherever the cut, the two sides add up to the whole. */
  lemma {:induction false} CutAddsUp(samples: seq<Point>, before: int, g: Group)
    ensures Plus(Total(Older(samples, before), g), Total(Newer(samples, before), g)) == Total(samples, g)
  {
    if samples != [] {
      var front, last := samples[..|samples| - 1], samples[|samples| - 1];
      CutAddsUp(front, before, g);
      if last.at < before {
        TotalMore(Older(front, before), last, g);
        assert Newer(samples, before) == Newer(front, before);
        var a, b, c := Total(Older(front, before), g), Total(Newer(front, before), g), Of(last, g);
        PlusAssociative(a, c, b);
        PlusCommutative(c, b);
        PlusAssociative(a, b, c);
      } else {
        TotalMore(Newer(front, before), last, g);
        assert Older(samples, before) == Older(front, before);
        PlusAssociative(Total(Older(front, before), g), Total(Newer(front, before), g), Of(last, g));
      }
    }
  }

  /** The columns of a roll-up that a compaction overwrites. */
  datatype Gauges = Gauges(diskUsed: int, diskTotal: int, cores: int)

  function Gauge(p: Point): Gauges {
    Gauges(p.diskUsed, p.diskTotal, p.cores)
  }

  function Wider(a: Gauges, b: Gauges): Gauges {
    Gauges(MaxInt(a.diskUsed, b.diskUsed), MaxInt(a.diskTotal, b.diskTotal), MaxInt(a.cores, b.cores))
  }

  /** The gauges of a group's samples, if it has any. */
  function GaugesOf(samples: seq<Point>, g: Group): Option<Gauges> {
    if samples == [] then None
    else
      var front, last := GaugesOf(samples[..|samples| - 1], g), samples[|samples| - 1];
      if !Within(last, g) then front
      else if front.None? then Some(Gauge(last))
      else Some(Wider(front.value, Gauge(last)))
  }

  lemma {:induction false} GaugesWhereTotals(samples: seq<Point>, g: Group)
    ensures GaugesOf(samples, g).Some? <==> Total(samples, g).Some?
  {
    if samples != [] { GaugesWhereTotals(samples[..|samples| - 1], g); }
  }

  const DISK_USED: Point -> real := (p: Point) => p.diskUsed as real

  const DISK_TOTAL: Point -> real := (p: Point) => p.diskTotal as real

  const CORES: Point -> real := (p: Point) => p.cores as real

  /** Each gauge is the greatest value among the group's samples of the batch. */
  ghost predicate Widest(samples: seq<Point>, g: Group, x: Gauges) {
    && Greatest(samples, g, DISK_USED, x.diskUsed as real)
    && Greatest(samples, g, DISK_TOTAL, x.diskTotal as real)
    && Greatest(samples, g, CORES, x.cores as real)
  }

  lemma WidestMore(samples: seq<Point>, p: Point, g: Group, x: Gauges)
    requires Widest(samples, g, x)
    ensures Widest(samples + [p], g, if Within(p, g) then Wider(x, Gauge(p)) else x)
  {
    GreatestMore(samples, p, g, DISK_USED, x.diskUsed as real);
    GreatestMore(samples, p, g, DISK_TOTAL, x.diskTotal as real);
    GreatestMore(samples, p, g, CORES, x.cores as real);
  }

  lemma {:induction false} GaugesAreGreatest(samples: seq<Point>, g: Group)
    requires GaugesOf(samples, g).Some?
    ensures Widest(samples, g, GaugesOf(samples, g).value)
  {
    var front, last := samples[..|samples| - 1], samples[|samples| - 1];
    assert samples == front + [last];
    if GaugesOf(front, g).Some? {
      GaugesAreGreatest(front, g);
      WidestMore(front, last, g, GaugesOf(front, g).value);
    } else {
      GaugesWhereTotals(front, g);
      GreatestFirst(front, last, g, DISK_USED);
      GreatestFirst(front, last, g, DISK_TOTAL);
      GreatestFirst(front, last, g, CORES);
    }
  }

  datatype Rolled = Rolled(totals: Totals, gauges: Gauges)

  type Rollups = map<Group, Rolled>

  function Buckets(samples: seq<Point>): set<Group> {
    set i | 0 <= i < |samples| :: BucketOf(samples[i])
  }

  function Row(rollups: Rollups, g: Group): Option<Totals> {
    if g in rollups then Some(rollups[g].totals) else None
  }

  function GaugesAfter(rollups: Rollups, samples: seq<Point>, g: Group): Gauges {
    var batch := GaugesOf(samples, g);
    if batch.Some? then batch.value else if g in rollups then rollups[g].gauges else Gauges(0, 0, 0)
  }

  /** The grouped insert into the roll-ups: totals are merged, gauges overwritten. */
  function RolledUp(rollups: Rollups, samples: seq<Point>): Rollups {
    map g | g in rollups.Keys + Buckets(samples) && Plus(Row(rollups, g), Total(samples, g)).Some? ::
      Rolled(Plus(Row(rollups, g), Total(samples, g)).value, GaugesAfter(rollups, samples, g))
  }

  /** A roll-up's gauges are those of the last batch that had samples for it. */
  lemma GaugesAreOfLastBatch(rollups: Rollups, samples: seq<Point>, g: Group)
    requires g in RolledUp(rollups, samples)
    ensures if Total(samples, g).Some? then Some(RolledUp(rollups, samples)[g].gauges) == GaugesOf(samples, g)
            else g in rollups && RolledUp(rollups, samples)[g] == rollups[g]
  {
    GaugesWhereTotals(samples, g);
  }

  function Retained(rollups: Rollups, before: int): Rollups {
    map g | g in rollups && !(g.Minute? && g.at < before) :: rollups[g]
  }

  /** Everything the store still knows about a group. */
  function Held(samples: seq<Point>, rollups: Rollups, g: Group): Option<Totals> {
    Plus(Row(rollups, g), Total(samples, g))
  }

  lemma {:induction false} NoBucketNoTotal(samples: seq<Point>, g: Group)
    requires g.Minute? && g !in Buckets(samples)
    ensures Total(samples, g).None?
  {
    if samples != [] {
      var front, last := samples[..|samples| - 1], samples[|samples| - 1];
      assert BucketOf(last) != g by {
        assert samples[|samples| - 1] == last;
      }
      forall i | 0 <= i < |front| ensures BucketOf(front[i]) != g {
        assert front[i] == samples[i];
      }
      NoBucketNoTotal(front, g);
    }
  }

  /** Moving raw samples into roll-ups changes no minute's totals. */
  lemma RollUpConserves(samples: seq<Point>, rollups: Rollups, before: int, g: Group)
    requires g.Minute?
    ensures Held(Newer(samples, before), RolledUp(rollups, Older(samples, before)), g) == Held(samples, rollups, g)
  {
    var older, newer := Older(samples, before), Newer(samples, before);
    CutAddsUp(samples, before, g);
    assert Row(RolledUp(rollups, older), g) == Plus(Row(rollups, g), Total(older, g)) by {
      if g !in Buckets(older) {
        NoBucketNoTotal(older, g);
      }
    }
    PlusAssociative(Row(rollups, g), Total(older, g), Total(newer, g));
  }

  datatype Summary = Summary(project: string, startedAt: int, finishedAt: int, totals: Totals)

  const LATE: Point -> real := (p: Point) => p.at as real

  const EARLY: Point -> real := (p: Point) => -(p.at as real)

  /** The earliest and the latest time at which the operation was observed. */
  ghost predicate Spans(samples: seq<Point>, g: Group, startedAt: int, finishedAt: int) {
    Greatest(samples, g, EARLY, -(startedAt as real)) && Greatest(samples, g, LATE, finishedAt as real)
  }

  /** The project named by the operation's last sample. */
  ghost predicate LastProject(samples: seq<Point>, g: Group, project: string) {
    exists i :: 0 <= i < |samples| && Within(samples[i], g) && samples[i].project == project &&
      forall j :: i < j < |samples| ==> !Within(samples[j], g)
  }

  ghost predicate Summarizes(summary: Summary, samples: seq<Point>, g: Group) {
    && Some(summary.totals) == Total(samples, g)
    && Spans(samples, g, summary.startedAt, summary.finishedAt)
    && LastProject(samples, g, summary.project)
  }

  ghost predicate SummaryRight(summaries: map<Group, Summary>, samples: seq<Point>, g: Group) {
    if g in summaries then Summarizes(summaries[g], samples, g) else Total(samples, g).None?
  }

  predicate Operates(g: Group) {
    g.Operation? && g.operation != ""
  }

  function Summarized(summaries: map<Group, Summary>, s: Point): map<Group, Summary> {
    var g, at := Operation(s.kind, s.operation), s.at;
    if s.operation == "" then summaries
    else if g !in summaries then summaries[g := Summary(s.project, at, at, One(s))]
    else
      var old_ := summaries[g];
      summaries[g := Summary(s.project, if at < old_.startedAt then at else old_.startedAt,
                             MaxInt(old_.finishedAt, at), Merge(old_.totals, One(s)))]
  }

  lemma {:induction false} EmptyGroup(samples: seq<Point>, g: Group, i: nat)
    requires Total(samples, g).None? && i < |samples|
    ensures !Within(samples[i], g)
  {
    var front := samples[..|samples| - 1];
    if i < |front| {
      EmptyGroup(front, g, i);
      assert front[i] == samples[i];
    }
  }

  lemma ProjectStays(samples: seq<Point>, s: Point, g: Group, project: string)
    requires !Within(s, g) && LastProject(samples, g, project)
    ensures LastProject(samples + [s], g, project)
  {
    var more := samples + [s];
    var k :| 0 <= k < |samples| && Within(samples[k], g) && samples[k].project == project &&
      forall j :: k < j < |samples| ==> !Within(samples[j], g);
    assert more[k] == samples[k];
  }

  /** The upsert keeps every operation's summary right. */
  lemma SummaryKept(summaries: map<Group, Summary>, samples: seq<Point>, s: Point, g: Group)
    requires Operates(g) && SummaryRight(summaries, samples, g)
    ensures SummaryRight(Summarized(summaries, s), samples + [s], g)
  {
    TotalMore(samples, s, g);
    if g in summaries {
      var was := summaries[g];
      GreatestMore(samples, s, g, EARLY, -(was.startedAt as real));
      GreatestMore(samples, s, g, LATE, was.finishedAt as real);
      if !Within(s, g) {
        ProjectStays(samples, s, g, was.project);
      }
    } else if Within(s, g) {
      GreatestFirst(samples, s, g, EARLY);
      GreatestFirst(samples, s, g, LATE);
    }
    assert (samples + [s])[|samples|] == s;
  }

  /** At or after the newest boundary, if there has been one. */
  predicate Beyond(at: int, horizon: Option<int>) {
    horizon.Some? ==> at >= horizon.value
  }

  function Raised(horizon: Option<int>, boundary: int): Option<int> {
    Some(if horizon.Some? then MaxInt(horizon.value, boundary) else boundary)
  }

  /** Every minute from the newest roll-up boundary on has kept all its samples. */
  ghost predicate Conserved(samples: seq<Point>, rollups: Rollups, history: seq<Point>, horizon: Option<int>) {
    forall g :: Kept(samples, rollups, history, horizon, g)
  }

  ghost predicate Kept(samples: seq<Point>, rollups: Rollups, history: seq<Point>, horizon: Option<int>, g: Group) {
    g.Minute? && Beyond(g.at, horizon) ==> Held(samples, rollups, g) == Total(history, g)
  }

  ghost predicate SummariesRight(summaries: map<Group, Summary>, history: seq<Point>) {
    forall g :: Operates(g) ==> SummaryRight(summaries, history, g)
  }

  // --------------------------------------------- said of the reports themselves

  /** The report belongs to the group. */
  predicate Concerns(s: Sample, g: Group)
    requires ValidSample(s)
  {
    match g
    case Minute(at, project, kind, operation) =>
      BucketAt(s.observedAt.nanos) == at && s.project == project && s.kind == kind && s.operation == operation
    case Operation(kind, operation) => s.kind == kind && s.operation == operation
  }

  /** The points are valid reports as they were stored. */
  ghost predicate AllStored(samples: seq<Point>) {
    forall i :: 0 <= i < |samples| ==> IsStored(samples[i])
  }

  predicate IsStored(p: Point) {
    ValidSample(p.reported) && p == Stored(p.reported)
  }

  lemma StoredConcerns(p: Point, g: Group)
    requires IsStored(p)
    ensures Within(p, g) <==> Concerns(p.reported, g)
  {
  }

  function Sum(samples: seq<Point>, g: Group, value: Sample -> real): real
    requires AllStored(samples)
  {
    if samples == [] then 0.0
    else
      var front, last := samples[..|samples| - 1], samples[|samples| - 1];
      assert forall i :: 0 <= i < |front| ==> front[i] == samples[i];
      Sum(front, g, value) + if Concerns(last.reported, g) then value(last.reported) else 0.0
  }

  const EACH: Sample -> real := (s: Sample) => 1.0

  const CPU: Sample -> real := (s: Sample) => if s.cpu.Finite? then s.cpu.value else 0.0

  const MEMORY: Sample -> real := (s: Sample) => if s.memory.Finite? then s.memory.value else 0.0

  const BYTES: Sample -> real := (s: Sample) => s.memoryUsed as real

  const OBSERVED: Sample -> real := (s: Sample) => if s.observedAt.At? then s.observedAt.nanos as real else 0.0

  /** A group's totals count its reports and add up what they say; without totals
      there is nothing to count or to add. */
  lemma {:induction false} TotalsAddUp(samples: seq<Point>, g: Group)
    requires AllStored(samples)
    ensures var t := Total(samples, g);
            && Sum(samples, g, EACH) == (if t.Some? then t.value.count as real else 0.0)
            && Sum(samples, g, CPU) == (if t.Some? then t.value.cpuSum else 0.0)
            && Sum(samples, g, MEMORY) == (if t.Some? then t.value.memorySum else 0.0)
  {
    if samples != [] {
      var front, last := samples[..|samples| - 1], samples[|samples| - 1];
      assert forall i :: 0 <= i < |front| ==> front[i] == samples[i];
      TotalsAddUp(front, g);
      StoredConcerns(last, g);
    }
  }

  /** `peak` is the greatest value among the group's reports. */
  ghost predicate Tops(samples: seq<Point>, g: Group, value: Sample -> real, peak: real)
    requires AllStored(samples)
  {
    && (forall i :: 0 <= i < |samples| && Concerns(samples[i].reported, g) ==> value(samples[i].reported) <= peak)
    && (exists i :: 0 <= i < |samples| && Concerns(samples[i].reported, g) && value(samples[i].reported) == peak)
  }

  lemma GreatestTops(samples: seq<Point>, g: Group, stored: Point -> real, value: Sample -> real, peak: real)
    requires AllStored(samples) && Greatest(samples, g, stored, peak)
    requires forall p :: IsStored(p) ==> stored(p) == value(p.reported)
    ensures Tops(samples, g, value, peak)
  {
    forall i | 0 <= i < |samples| ensures IsStored(samples[i]) && (Within(samples[i], g) <==> Concerns(samples[i].reported, g)) {
      StoredConcerns(samples[i], g);
    }
    var i :| 0 <= i < |samples| && Within(samples[i], g) && stored(samples[i]) == peak;
    assert Concerns(samples[i].reported, g) && value(samples[i].reported) == peak;
  }

  /** A group's peaks are the greatest values its reports name. */
  lemma PeaksAreReported(samples: seq<Point>, g: Group)
    requires AllStored(samples) && Total(samples, g).Some?
    ensures Tops(samples, g, CPU, Total(samples, g).value.cpuPeak)
    ensures Tops(samples, g, MEMORY, Total(samples, g).value.memoryPeak)
    ensures Tops(samples, g, BYTES, Total(samples, g).value.bytesPeak as real)
  {
    var t := Total(samples, g).value;
    PeaksAreGreatest(samples, g);
    GreatestTops(samples, g, (p: Point) => p.cpu, CPU, t.cpuPeak);
    GreatestTops(samples, g, (p: Point) => p.memory, MEMORY, t.memoryPeak);
    GreatestTops(samples, g, (p: Point) => p.memoryUsed as real, BYTES, t.bytesPeak as real);
  }

  /** So are its gauges, over a batch. */
  lemma GaugesAreReported(samples: seq<Point>, g: Group)
    requires AllStored(samples) && GaugesOf(samples, g).Some?
    ensures var x := GaugesOf(samples, g).value;
            && Tops(samples, g, (s: Sample) => s.diskUsed as real, x.diskUsed as real)
            && Tops(samples, g, (s: Sample) => s.diskTotal as real, x.diskTotal as real)
            && Tops(samples, g, (s: Sample) => s.cores as real, x.cores as real)
  {
    var x := GaugesOf(samples, g).value;
    GaugesAreGreatest(samples, g);
    GreatestTops(samples, g, DISK_USED, (s: Sample) => s.diskUsed as real, x.diskUsed as real);
    GreatestTops(samples, g, DISK_TOTAL, (s: Sample) => s.diskTotal as real, x.diskTotal as real);
    GreatestTops(samples, g, CORES, (s: Sample) => s.cores as real, x.cores as real);
  }

  /** A summary that is right spans the reports of its operation, from the first
      observation to the last, and names the project of the last report. */
  lemma SummaryIsReported(summary: Summary, samples: seq<Point>, g: Group)
    requires AllStored(samples) && Summarizes(summary, samples, g)
    ensures Tops(samples, g, OBSERVED, summary.finishedAt as real)
    ensures Tops(samples, g, (s: Sample) => -OBSERVED(s), -(summary.startedAt as real))
    ensures exists i :: 0 <= i < |samples| && Concerns(samples[i].reported, g) && samples[i].reported.project == summary.project &&
              forall j :: i < j < |samples| ==> !Concerns(samples[j].reported, g)
  {
    GreatestTops(samples, g, LATE, OBSERVED, summary.finishedAt as real);
    GreatestTops(samples, g, EARLY, (s: Sample) => -OBSERVED(s), -(summary.startedAt as real));
    forall i | 0 <= i < |samples| ensures Within(samples[i], g) <==> Concerns(samples[i].reported, g) { StoredConcerns(samples[i], g); }
    var i :| 0 <= i < |samples| && Within(samples[i], g) && samples[i].project == summary.project &&
      forall j :: i < j < |samples| ==> !Within(samples[j], g);
    assert Concerns(samples[i].reported, g) && samples[i].reported.project == summary.project;
  }

  class ResourceStore {
    var samples: seq<Point>
    var rollups: Rollups
    var summaries: map<Group, Summary>
    /** Every sample ever accepted, and the newest boundary below which roll-ups were dropped. */
    ghost var history: seq<Point>
    ghost var horizon: Option<int>

    ghost predicate Valid()
      reads this
    {
      && Conserved(samples, rollups, history, horizon) && SummariesRight(summaries, history)
      && AllStored(history)
    }

    constructor ()
      ensures Valid() && samples == [] && rollups == map[] && summaries == map[] && history == [] && horizon == None
    {
      samples, rollups, summaries := [], map[], map[];
      history, horizon := [], None;
    }

    method AppendResourceSample(s: Sample) returns (ok: bool)
      requires Valid()
      modifies this
      ensures Valid()
      ensures ok <==> ValidSample(s)
      ensures !ok ==> unchanged(this)
      ensures ok ==> samples == old(samples) + [Stored(s)] && history == old(history) + [Stored(s)] && rollups == old(rollups) && horizon == old(horizon)
      ensures ok ==> history[|history| - 1].reported == s
    {
      if !ValidSample(s) {
        return false;
      }
      var p := Stored(s);
      AppendConserves(samples, rollups, history, horizon, p);
      forall g | Operates(g) ensures SummaryRight(Summarized(summaries, p), history + [p], g) {
        SummaryKept(summaries, history, p, g);
      }
      samples, history := samples + [p], history + [p];
      summaries := Summarized(summaries, p);
      ok := true;
    }

    method CompactResourceSamples(rawBefore: Time, rollupBefore: Time) returns (ok: bool)
      requires Valid()
      modifies this
      ensures Valid() && history == old(history) && summaries == old(summaries)
      ensures ok <==> rawBefore.At? && rollupBefore.At? && rollupBefore.nanos < rawBefore.nanos
      ensures !ok ==> unchanged(this)
      ensures ok ==> samples == Newer(old(samples), rawBefore.nanos)
      ensures ok ==> rollups == Retained(RolledUp(old(rollups), Older(old(samples), rawBefore.nanos)), rollupBefore.nanos)
      ensures ok ==> horizon == Raised(old(horizon), rollupBefore.nanos)
      ensures ok ==> forall g :: g in rollups && g.Minute? ==> g.at >= rollupBefore.nanos
    {
      if rawBefore.Zero? || rollupBefore.Zero? || rollupBefore.nanos >= rawBefore.nanos {
        return false;
      }
      CompactConserves(samples, rollups, history, horizon, rawBefore.nanos, rollupBefore.nanos);
      rollups := RolledUp(rollups, Older(samples, rawBefore.nanos));
      samples := Newer(samples, rawBefore.nanos);
      rollups := Retained(rollups, rollupBefore.nanos);
      horizon := Raised(horizon, rollupBefore.nanos);
      ok := true;
    }
  }

  lemma AppendConserves(samples: seq<Point>, rollups: Rollups, history: seq<Point>, horizon: Option<int>, s: Point)
    requires Conserved(samples, rollups, history, horizon)
    ensures Conserved(samples + [s], rollups, history + [s], horizon)
  {
    forall g ensures Kept(samples + [s], rollups, history + [s], horizon, g) {
      assert Kept(samples, rollups, history, horizon, g);
      TotalMore(samples, s, g);
      TotalMore(history, s, g);
      PlusAssociative(Row(rollups, g), Total(samples, g), Of(s, g));
    }
  }

  lemma CompactConserves(samples: seq<Point>, rollups: Rollups, history: seq<Point>, horizon: Option<int>, rawBefore: int, rollupBefore: int)
    requires Conserved(samples, rollups, history, horizon)
    ensures Conserved(Newer(samples, rawBefore), Retained(RolledUp(rollups, Older(samples, rawBefore)), rollupBefore), history, Raised(horizon, rollupBefore))
  {
    var moved := RolledUp(rollups, Older(samples, rawBefore));
    forall g ensures Kept(Newer(samples, rawBefore), Retained(moved, rollupBefore), history, Raised(horizon, rollupBefore), g) {
      assert Kept(samples, rollups, history, horizon, g);
      if g.Minute? && Beyond(g.at, Raised(horizon, rollupBefore)) {
        RollUpConserves(samples, rollups, rawBefore, g);
      }
    }
  }

  /** A sample observed a minute or more after the newest boundary is still
      counted, however the calls were interleaved. */
  lemma NeverForgotten(samples: seq<Point>, rollups: Rollups, history: seq<Point>, horizon: Option<int>, i: nat)
    requires Conserved(samples, rollups, history, horizon)
    requires i < |history| && Beyond(history[i].at - MINUTE, horizon)
    ensures var g := BucketOf(history[i]);
            Held(samples, rollups, g) == Total(history, g) && Held(samples, rollups, g).Some?
  {
    var g := BucketOf(history[i]);
    BucketIsRecent(history[i].at);
    assert Kept(samples, rollups, history, horizon, g);
    if Total(history, g).None? {
      EmptyGroup(history, g, i);
    }
  }
}
