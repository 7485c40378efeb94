/**
 * The values the NAV chart derives from its inputs and its state: the merged
 * reported + near-casting series, the near-casting flag, the initial brush
 * windows, the series that feeds the domain, the Year/Quarter tick rule, the
 * axis label format and the export name and rows.
 */
module NavChart {
  import opened Wrappers
  import opened Series

  // ---------------------------------------------------------------- merge

  /**
   * The chart's `timeSeries.data`: the reported points followed by the
   * near-casting points, by plain concatenation (no key is renamed).
   */
  function Merge(reported: TimeSeries, nearCasting: Option<NavData>): (r: seq<Point>)
    ensures |r| == |DataOrEmpty(reported)| + |PointsOf(nearCasting)|
  {
    DataOrEmpty(reported) + PointsOf(nearCasting)
  }

  /**
   * The reported points come first, untouched, and the near-casting points
   * follow as whole, equal points: equality of the points is what rules out
   * any renaming of their value keys.
   */
  lemma MergeKeepsBothParts(reported: TimeSeries, nearCasting: Option<NavData>)
    ensures var r, n := Merge(reported, nearCasting), |DataOrEmpty(reported)|;
      && r[..n] == DataOrEmpty(reported)
      && (forall i :: 0 <= i < |PointsOf(nearCasting)| ==>
            r[n + i] == PointsOf(nearCasting)[i])
  {
  }

  /** `isNearCastingEmpty`: there is no near-casting series, or it has no points. */
  function IsNearCastingEmpty(nearCasting: Option<NavData>): (b: bool)
    ensures b <==> nearCasting.None? || nearCasting.value.timeSeries.None?
                   || nearCasting.value.timeSeries.value.data.None?
                   || |nearCasting.value.timeSeries.value.data.value| == 0
  {
    match nearCasting
    case None => true
    case Some(d) =>
      match d.timeSeries
      case None => true
      case Some(ts) => ts.data.None? || |ts.data.value| == 0
  }

  /** With no near-casting points the merged series is the reported series. */
  lemma MergeWithoutNearCasting(reported: TimeSeries, nearCasting: Option<NavData>)
    requires IsNearCastingEmpty(nearCasting)
    ensures Merge(reported, nearCasting) == DataOrEmpty(reported)
  {
    assert PointsOf(nearCasting) == [];
  }

  /** The flag is exactly "the merge adds nothing". */
  lemma NearCastingEmptyIffNothingAppended(reported: TimeSeries, nearCasting: Option<NavData>)
    ensures IsNearCastingEmpty(nearCasting) <==> |Merge(reported, nearCasting)| == |DataOrEmpty(reported)|
  {
  }

  /**
   * `nearCastingStartingFrom`: the date of the last reported point. The
   * source reads `data[length - 1].x`, which throws when the reported data is
   * missing or empty; that is `None` here.
   */
  function NearCastingStart(reported: TimeSeries): (r: Option<int>)
    ensures r.Some? <==> reported.data.Some? && |reported.data.value| > 0
    ensures r.Some? ==> r.value == reported.data.value[|reported.data.value| - 1].x
  {
    match reported.data
    case None => None
    case Some(pts) => if |pts| == 0 then None else Some(pts[|pts| - 1].x)
  }

  /** The shaded near-casting region starts at the junction: the last reported point of the merged series. */
  lemma NearCastingStartIsJunction(reported: TimeSeries, nearCasting: Option<NavData>)
    requires NearCastingStart(reported).Some?
    ensures var n := |DataOrEmpty(reported)|;
      0 < n <= |Merge(reported, nearCasting)| && Merge(reported, nearCasting)[n - 1].x == NearCastingStart(reported).value
  {
  }

  // ---------------------------------------------------------------- windows

  /** The initial `rangeIndexes`: `[0, (length || 1) - 1]`. */
  function InitialRangeIndexes(len: nat): (w: (int, int))
    ensures w.0 == 0 && 0 <= w.1
    ensures len > 0 ==> w.1 - w.0 + 1 == len
    ensures len == 0 ==> w.1 == 0
  {
    (0, (if len == 0 then 1 else len) - 1)
  }

  /**
   * The initial (and reset) `benchmarkingRange`: the last index of the
   * benchmark series, or 0 without one. A present but empty series gives -1.
   */
  function InitialBenchmarkingRange(benchmark: Option<seq<Point>>): (r: int)
    ensures benchmark.None? ==> r == 0
    ensures benchmark.Some? ==> r + 1 == |benchmark.value|
  {
    match benchmark
    case None => 0
    case Some(pts) => |pts| - 1
  }

  /** For a non-empty benchmark series the initial range is a valid index: its last one. */
  lemma InitialBenchmarkingRangeIsLastIndex(benchmark: Option<seq<Point>>)
    requires benchmark.Some? && |benchmark.value| > 0
    ensures 0 <= InitialBenchmarkingRange(benchmark) < |benchmark.value|
    ensures benchmark.value[InitialBenchmarkingRange(benchmark)] == benchmark.value[|benchmark.value| - 1]
  {
  }

  // ---------------------------------------------------------------- domain source

  /** What `calcDomainRange` is called with: a series and, optionally, an index window. */
  datatype DomainInput = DomainInput(series: seq<Point>, window: Option<(int, int)>)

  /**
   * `isBenchmarking && benchmarkingTimeSeries`: benchmark mode with its data
   * arrived. While the data is pending the primary window stays authoritative.
   */
  predicate BenchmarkIsAuthoritative(isBenchmarking: bool, benchmark: Option<seq<Point>>)
    ensures BenchmarkIsAuthoritative(isBenchmarking, benchmark) ==> isBenchmarking && benchmark.Some?
    ensures !isBenchmarking || benchmark.None? ==> !BenchmarkIsAuthoritative(isBenchmarking, benchmark)
  {
    isBenchmarking && benchmark.Some?
  }

  /**
   * The domain source: in benchmark mode with data, the whole benchmark
   * series; otherwise the merged series with the primary window.
   */
  function DomainSource(isBenchmarking: bool, benchmark: Option<seq<Point>>,
                        data: seq<Point>, rangeIndexes: (int, int)): (d: DomainInput)
    ensures BenchmarkIsAuthoritative(isBenchmarking, benchmark) <==> d.window.None?
    ensures BenchmarkIsAuthoritative(isBenchmarking, benchmark) ==> d.series == benchmark.value
    ensures !BenchmarkIsAuthoritative(isBenchmarking, benchmark) ==> d.series == data && d.window.value == rangeIndexes
  {
    if isBenchmarking && benchmark.Some? then DomainInput(benchmark.value, None)
    else DomainInput(data, Some(rangeIndexes))
  }

  /** Exactly one window is authoritative: the other one never affects the domain. */
  lemma DomainSourceIgnoresInactiveWindow(isBenchmarking: bool, benchmark: Option<seq<Point>>,
                                          data: seq<Point>, w1: (int, int), w2: (int, int),
                                          other: Option<seq<Point>>)
    ensures BenchmarkIsAuthoritative(isBenchmarking, benchmark) ==>
      DomainSource(isBenchmarking, benchmark, data, w1) == DomainSource(isBenchmarking, benchmark, data, w2)
    ensures !isBenchmarking ==>
      DomainSource(isBenchmarking, benchmark, data, w1) == DomainSource(isBenchmarking, other, data, w1)
  {
  }

  // ---------------------------------------------------------------- ticks

  datatype TicksType = Year | Quarter

  /** The divisor 3.154e10 ms, about one year; it is an exact integer. */
  const MsPerYear: int := 31_540_000_000

  /** `Math.floor(span / 3.154e10)`: the number of whole approximate years in the span. */
  function YearsRange(span: int): (y: int)
    ensures y * MsPerYear <= span < (y + 1) * MsPerYear
  {
    span / MsPerYear
  }

  /** The tick rule: Year when the span holds at least three approximate years. */
  function TicksTypeForSpan(span: int): (t: TicksType)
    ensures t == Year <==> span >= 3 * MsPerYear
  {
    if YearsRange(span) >= 3 then Year else Quarter
  }

  /** Widening the span can move Quarter to Year, never Year to Quarter. */
  lemma TicksTypeMonotone(s1: int, s2: int)
    requires s1 <= s2
    ensures TicksTypeForSpan(s1) == Year ==> TicksTypeForSpan(s2) == Year
    ensures TicksTypeForSpan(s2) == Quarter ==> TicksTypeForSpan(s1) == Quarter
  {
  }

  /** The cut-off lies exactly at 3 * 3.154e10 ms. */
  lemma TicksTypeBoundary()
    ensures TicksTypeForSpan(94_620_000_000) == Year
    ensures TicksTypeForSpan(94_619_999_999) == Quarter
    ensures TicksTypeForSpan(0) == Quarter
  {
  }

  /**
   * Three calendar years without a leap day (1095 days, for instance from
   * 1 January 2021 to 1 January 2024) fall short of the cut-off; three
   * calendar years with one (1096 days) reach it.
   */
  lemma ThreeCalendarYears()
    ensures TicksTypeForSpan(1095 * 86_400_000) == Quarter
    ensures TicksTypeForSpan(1096 * 86_400_000) == Year
  {
  }

  /** The axis label format for a tick type. */
  function AxisFormat(t: TicksType): (f: string)
    ensures f == "yyyy" <==> t == Year
    ensures f == "QQ 'YY" <==> t == Quarter
  {
    match t
    case Year =>
      assert "yyyy"[0] != "QQ 'YY"[0];
      "yyyy"
    case Quarter => "QQ 'YY"
  }

  /**
   * The index of the point that ends the primary tick span: the window's
   * width `rangeIndexes[1] - rangeIndexes[0]`, capped at the last index.
   * It is a width, so the span is measured from point 0, not from the
   * window's start.
   */
  function TickEndIndex(rangeIndexes: (int, int), len: nat): (k: int)
    ensures len > 0 && rangeIndexes.1 - rangeIndexes.0 >= 0 ==> 0 <= k < len
    ensures k <= rangeIndexes.1 - rangeIndexes.0
    ensures k < rangeIndexes.1 - rangeIndexes.0 ==> k == len - 1
  {
    var range := rangeIndexes.1 - rangeIndexes.0;
    if range >= len then len - 1 else range
  }

  /**
   * `xAxisTicksType`. Benchmark mode with data measures from benchmark point 0
   * to point `benchmarkingRange`; otherwise from chart point 0 to
   * `TickEndIndex`; an empty chart measures a zero span. `None` is the
   * source's TypeError from reading `.x` at an index outside the array.
   */
  function XAxisTicksType(isBenchmarking: bool, benchmark: Option<seq<Point>>, benchmarkingRange: int,
                          chartData: seq<Point>, rangeIndexes: (int, int)): (r: Option<TicksType>)
    ensures BenchmarkIsAuthoritative(isBenchmarking, benchmark) ==>
      (r.Some? <==> 0 <= benchmarkingRange < |benchmark.value|)
    ensures !BenchmarkIsAuthoritative(isBenchmarking, benchmark) ==>
      (r.Some? <==> |chartData| == 0 || rangeIndexes.1 - rangeIndexes.0 >= 0)
    ensures BenchmarkIsAuthoritative(isBenchmarking, benchmark) && r.Some? ==>
      (r.value == Year <==> benchmark.value[benchmarkingRange].x - benchmark.value[0].x >= 3 * MsPerYear)
    ensures !BenchmarkIsAuthoritative(isBenchmarking, benchmark) && |chartData| > 0 && r.Some? ==>
      (r.value == Year <==> chartData[TickEndIndex(rangeIndexes, |chartData|)].x - chartData[0].x >= 3 * MsPerYear)
    ensures !BenchmarkIsAuthoritative(isBenchmarking, benchmark) && |chartData| == 0 ==> r == Some(Quarter)
  {
    if isBenchmarking && benchmark.Some? then
      var pts := benchmark.value;
      if 0 <= benchmarkingRange < |pts| then Some(TicksTypeForSpan(pts[benchmarkingRange].x - pts[0].x))
      else None
    else if |chartData| > 0 then
      var k := TickEndIndex(rangeIndexes, |chartData|);
      if 0 <= k then Some(TicksTypeForSpan(chartData[k].x - chartData[0].x)) else None
    else
      Some(TicksTypeForSpan(0))
  }

  /**
   * In primary mode the tick type depends on the window's width only:
   * shifting the window leaves it unchanged, because the span starts at point 0.
   */
  lemma TicksTypeIgnoresWindowStart(chartData: seq<Point>, benchmark: Option<seq<Point>>, benchmarkingRange: int,
                                    rangeIndexes: (int, int), shift: int)
    ensures XAxisTicksType(false, benchmark, benchmarkingRange, chartData, rangeIndexes)
         == XAxisTicksType(false, benchmark, benchmarkingRange, chartData, (rangeIndexes.0 + shift, rangeIndexes.1 + shift))
  {
  }

  /** The measured span in primary mode: from point 0 to the capped window width. */
  lemma PrimaryTicksSpan(isBenchmarking: bool, benchmark: Option<seq<Point>>, benchmarkingRange: int,
                         chartData: seq<Point>, rangeIndexes: (int, int))
    requires !BenchmarkIsAuthoritative(isBenchmarking, benchmark)
    requires |chartData| > 0 && rangeIndexes.0 <= rangeIndexes.1
    ensures var k := TickEndIndex(rangeIndexes, |chartData|);
      0 <= k < |chartData|
      && k == (if rangeIndexes.1 - rangeIndexes.0 < |chartData| then rangeIndexes.1 - rangeIndexes.0 else |chartData| - 1)
      && var r := XAxisTicksType(isBenchmarking, benchmark, benchmarkingRange, chartData, rangeIndexes);
         r.Some? && (r.value == Year <==> chartData[k].x - chartData[0].x >= 3 * MsPerYear)
  {
  }

  // ---------------------------------------------------------------- brush and export

  /** The number of points the displayed window `[startIndex, endIndex]` covers (both ends included). */
  function WindowLength(startIndex: int, endIndex: int): (n: int)
    ensures startIndex <= endIndex ==> n > 0 && n - 1 == endIndex - startIndex
  {
    endIndex - startIndex + 1
  }

  /**
   * The brush's export slice is end-exclusive while the displayed window is
   * inclusive: a valid brushed window exports one point fewer than it shows,
   * and the point at `endIndex` is not exported.
   */
  lemma ExportSliceOmitsWindowEnd(data: seq<Point>, startIndex: int, endIndex: int)
    requires 0 <= startIndex <= endIndex < |data|
    ensures |JsSlice(data, startIndex, endIndex)| == WindowLength(startIndex, endIndex) - 1
    ensures JsSlice(data, startIndex, endIndex) + [data[endIndex]] == data[startIndex..endIndex + 1]
  {
    JsSliceInRange(data, startIndex, endIndex);
  }

  /** The zip name stem: `<entity>_FundPerformance_Nav` or `<entity>_FundPerformance_jCurve`. */
  function ZipFileName(entityName: Option<string>, activeDataKey: string): (name: string)
    ensures |name| == |TemplateText(entityName)| + 17 + (if activeDataKey == "NAV" then 3 else 6)
    ensures name[..|TemplateText(entityName)|] == TemplateText(entityName)
    ensures name[|TemplateText(entityName)|..|TemplateText(entityName)| + 17] == "_FundPerformance_"
    ensures name[|name| - 3..] == "Nav" <==> activeDataKey == "NAV"
    ensures activeDataKey != "NAV" ==> name[|name| - 6..] == "jCurve"
  {
    var suffix := if activeDataKey == "NAV" then "Nav" else "jCurve";
    var name := TemplateText(entityName) + "_FundPerformance_" + suffix;
    assert name[|name| - |suffix|..] == suffix;
    assert name[|TemplateText(entityName)|..|TemplateText(entityName)| + 17] == "_FundPerformance_";
    assert "jCurve"[3..] != "Nav" by { assert "jCurve"[3] != "Nav"[0]; }
    name
  }

  /** The rows to export: the brushed slice when there is one, otherwise the whole merged series. */
  function ExportRows(dataForExport: seq<Point>, data: seq<Point>): (rows: seq<Point>)
    ensures rows == [] <==> dataForExport == [] && data == []
    ensures rows == dataForExport || rows == data
    ensures dataForExport != [] ==> rows == dataForExport
  {
    if |dataForExport| > 0 then dataForExport else data
  }
}
