// The performance monitor: named marks with start times, measurement of the
// time since a mark, and the summary report over measured marks. The clock
// (`performance.now()`) is a `now` parameter; the browser Performance API
// calls and console warnings are not modelled. A `Map` keeps insertion
// order and `set` on an existing name keeps its place, so the marks are a
// sequence with distinct names.

module Performance {
  import opened JsCore

  datatype PerfMark = PerfMark(name: string, startTime: real, endTime: Option<real>,
                               duration: Option<real>, metadata: Option<JsValue>)

  predicate DistinctNames(marks: seq<PerfMark>)
  {
    forall i, j :: 0 <= i < j < |marks| ==> marks[i].name != marks[j].name
  }

  /** The position of the mark with this name, if any. */
  function IndexOfName(marks: seq<PerfMark>, name: string): (r: Option<nat>)
    ensures r.Some? ==> r.value < |marks| && marks[r.value].name == name
    ensures r.None? ==> forall i :: 0 <= i < |marks| ==> marks[i].name != name
    decreases |marks|
  {
    if marks == [] then None
    else if marks[|marks| - 1].name == name then Some(|marks| - 1)
    else IndexOfName(marks[..|marks| - 1], name)
  }

  /** `marks.set(m.name, m)`: replace in place, or append a new name. */
  function SetMark(marks: seq<PerfMark>, m: PerfMark): (r: seq<PerfMark>)
    requires DistinctNames(marks)
    ensures DistinctNames(r)
    ensures IndexOfName(marks, m.name).Some? ==> r == marks[IndexOfName(marks, m.name).value := m]
    ensures IndexOfName(marks, m.name).None? ==> r == marks + [m]
  {
    match IndexOfName(marks, m.name)
    case Some(i) => marks[i := m]
    case None => marks + [m]
  }

  /** `mark.duration || 0`. */
  function Dur(m: PerfMark): real
  {
    if m.duration.Some? then m.duration.value else 0.0
  }

  /** The marks that have been measured, in order. */
  function Measured(marks: seq<PerfMark>): (r: seq<PerfMark>)
    ensures |r| <= |marks|
    ensures forall m :: m in r <==> m in marks && m.duration.Some?
    decreases |marks|
  {
    if marks == [] then []
    else (if marks[0].duration.Some? then [marks[0]] else []) + Measured(marks[1..])
  }

  /** The sum of the durations. */
  function Total(marks: seq<PerfMark>): real
    decreases |marks|
  {
    if marks == [] then 0.0 else Total(marks[..|marks| - 1]) + Dur(marks[|marks| - 1])
  }

  /** The `reduce` that keeps the earlier mark unless a later one is strictly
      slower: the position of the first mark of maximal duration. */
  function SlowestIndex(marks: seq<PerfMark>): (i: nat)
    requires marks != []
    ensures i < |marks|
    ensures forall j :: 0 <= j < |marks| ==> Dur(marks[j]) <= Dur(marks[i])
    ensures forall j :: 0 <= j < i ==> Dur(marks[j]) < Dur(marks[i])
    decreases |marks|
  {
    if |marks| == 1 then 0
    else
      var best := SlowestIndex(marks[..|marks| - 1]);
      if Dur(marks[|marks| - 1]) > Dur(marks[best]) then |marks| - 1 else best
  }

  datatype Report =
    | NoData
    | Summary(count: nat, totalTime: real, averageTime: real, slowest: PerfMark, operations: seq<PerfMark>)

  /** `generateReport`: over the measured marks, their number, total and
      average time, the first slowest one and the list of them all. */
  function GenerateReport(marks: seq<PerfMark>): (r: Report)
    ensures r.NoData? <==> forall m :: m in marks ==> m.duration.None?
    ensures r.Summary? ==>
              && r.operations == Measured(marks)
              && r.count == |r.operations| > 0
              && r.totalTime == Total(r.operations)
              && r.averageTime == r.totalTime / r.count as real
              && r.slowest in r.operations
              && (forall m :: m in r.operations ==> Dur(m) <= Dur(r.slowest))
    ensures r.Summary? ==>
              exists i :: 0 <= i < |r.operations| && r.operations[i] == r.slowest &&
                          forall j :: 0 <= j < i ==> Dur(r.operations[j]) < Dur(r.slowest)
  {
    var measured := Measured(marks);
    if measured == [] then NoData
    else
      var total := Total(measured);
      var s := SlowestIndex(measured);
      Summary(|measured|, total, total / |measured| as real, measured[s], measured)
  }

  /** The measured marks keep the order they were first set in. */
  lemma {:induction false} MeasuredInOrder(marks: seq<PerfMark>)
    ensures Subsequence(Measured(marks), marks)
    decreases |marks|
  {
    if marks != [] {
      MeasuredInOrder(marks[1..]);
      if marks[0].duration.Some? {
        assert Measured(marks)[1..] == Measured(marks[1..]);
      } else {
        assert Measured(marks) == Measured(marks[1..]);
        SubsequenceSkip(Measured(marks[1..]), marks);
      }
    }
  }

  /** Only measured marks enter the report: adding an unmeasured mark
      changes nothing, and a report over no marks has no data. */
  lemma {:induction false} UnmeasuredIgnored(marks: seq<PerfMark>, m: PerfMark)
    requires m.duration.None?
    ensures Measured(marks + [m]) == Measured(marks)
    ensures GenerateReport([]) == NoData
    decreases |marks|
  {
    if marks == [] {
      assert Measured([m]) == [] + Measured([]);
    } else {
      assert (marks + [m])[1..] == marks[1..] + [m];
      UnmeasuredIgnored(marks[1..], m);
    }
  }

  /** A total is at most the count times any bound on the durations. */
  lemma {:induction false} TotalBounded(marks: seq<PerfMark>, bound: real)
    requires forall i :: 0 <= i < |marks| ==> Dur(marks[i]) <= bound
    ensures Total(marks) <= |marks| as real * bound
    decreases |marks|
  {
    if marks != [] {
      var init := marks[..|marks| - 1];
      assert forall i :: 0 <= i < |init| ==> init[i] == marks[i];
      TotalBounded(init, bound);
      var k := |init| as real;
      assert (k + 1.0) * bound == k * bound + bound;
    }
  }

  /** The reported average never exceeds the slowest duration. */
  lemma AverageAtMostSlowest(marks: seq<PerfMark>)
    ensures var r := GenerateReport(marks);
            r.Summary? ==> r.averageTime <= Dur(r.slowest)
  {
    var ops := Measured(marks);
    if ops != [] {
      MeanAtMostMax(ops);
    }
  }

  lemma MeanAtMostMax(ops: seq<PerfMark>)
    requires ops != []
    ensures Total(ops) / |ops| as real <= Dur(ops[SlowestIndex(ops)])
  {
    MeanBounded(ops, Dur(ops[SlowestIndex(ops)]));
  }

  /** A mean is at most any bound on the durations. */
  lemma MeanBounded(marks: seq<PerfMark>, bound: real)
    requires marks != [] && forall i :: 0 <= i < |marks| ==> Dur(marks[i]) <= bound
    ensures Total(marks) / |marks| as real <= bound
  {
    TotalBounded(marks, bound);
    QuotientBounded(Total(marks), |marks| as real, bound);
  }

  lemma QuotientBounded(t: real, c: real, b: real)
    requires c > 0.0 && t <= c * b
    ensures t / c <= b
  {
    var q := t / c;
    assert q * c == t;
    if q > b {
      assert q * c > b * c;
    }
  }

  class PerformanceMonitor {
    var marks: seq<PerfMark>
    var enabled: bool

    predicate Valid()
      reads this
    {
      DistinctNames(marks)
    }

    constructor (enabled: bool)
      ensures Valid()
      ensures this.enabled == enabled && marks == []
    {
      this.enabled := enabled;
      marks := [];
    }

    /** `mark(name, metadata)`: when enabled, (re)start the mark of that name
        at `now`; when disabled, nothing. */
    method Mark(name: string, now: real, metadata: Option<JsValue>)
      requires Valid()
      modifies this`marks
      ensures Valid()
      ensures !enabled ==> marks == old(marks)
      ensures enabled ==> marks == SetMark(old(marks), PerfMark(name, now, None, None, metadata))
    {
      if !enabled {
        return;
      }
      marks := SetMark(marks, PerfMark(name, now, None, None, metadata));
    }

    /** `measure(name)`: when enabled and the mark exists, stamp its end time
        and duration and return the duration; otherwise null and no change. */
    method Measure(name: string, now: real) returns (d: Option<real>)
      requires Valid()
      modifies this`marks
      ensures Valid()
      ensures !enabled || IndexOfName(old(marks), name).None? ==> d.None? && marks == old(marks)
      ensures enabled && IndexOfName(old(marks), name).Some? ==>
                var i := IndexOfName(old(marks), name).value;
                && d == Some(now - old(marks)[i].startTime)
                && marks == old(marks)[i := old(marks)[i].(endTime := Some(now), duration := d)]
    {
      if !enabled {
        return None;
      }
      var found := IndexOfName(marks, name);
      if found.None? {
        return None;
      }
      var i := found.value;
      var duration := now - marks[i].startTime;
      marks := marks[i := marks[i].(endTime := Some(now), duration := Some(duration))];
      d := Some(duration);
    }

    /** `getPerformanceData(name)`. */
    function GetPerformanceData(name: string): (r: Option<PerfMark>)
      reads this
      ensures r.Some? <==> exists m :: m in marks && m.name == name
      ensures r.Some? ==> r.value in marks && r.value.name == name
    {
      match IndexOfName(marks, name)
      case Some(i) => Some(marks[i])
      case None => None
    }

    /** `clear`: no marks remain. */
    method Clear()
      modifies this`marks
      ensures Valid()
      ensures marks == []
    {
      marks := [];
    }

    /** The report over the monitor's current marks. */
    function Report(): (r: Report)
      reads this
      ensures r == GenerateReport(marks)
      ensures r.NoData? <==> forall i :: 0 <= i < |marks| ==> marks[i].duration.None?
      ensures r.Summary? ==> r.operations == Measured(marks) && r.count == |Measured(marks)|
    {
      GenerateReport(marks)
    }
  }

  /** Marking at t0 and measuring at t1 yields t1 - t0, and the report then
      includes that measurement. */
  method MarkThenMeasure(monitor: PerformanceMonitor, name: string, t0: real, t1: real) returns (d: Option<real>)
    requires monitor.Valid() && monitor.enabled
    modifies monitor`marks
    ensures monitor.Valid()
    ensures d == Some(t1 - t0)
    ensures monitor.GetPerformanceData(name).Some? && monitor.GetPerformanceData(name).value.duration == d
    ensures monitor.Report().Summary?
  {
    ghost var before := monitor.marks;
    monitor.Mark(name, t0, None);
    ghost var marked := monitor.marks;
    ghost var k: nat := if IndexOfName(before, name).Some? then IndexOfName(before, name).value else |before|;
    assert k < |marked| && marked[k].name == name && marked[k].startTime == t0;
    d := monitor.Measure(name, t1);
    var i := IndexOfName(marked, name).value;
    assert i == k;
    assert monitor.marks[i].name == name && monitor.marks[i].duration == d;
    var j := IndexOfName(monitor.marks, name).value;
    assert j == i;
    assert monitor.marks[i] in monitor.marks;
  }
}
