/**
 * The NAV chart's view state and the handlers that update it: the brush
 * windows, the export slice, the benchmark panel and selection, the active
 * metric and the export in progress. Calls into the chart's collaborators
 * (benchmark fetch and clear, the export handler) are recorded as events.
 */
module NavChartState {
  import opened Wrappers
  import opened Series
  import opened NavChart
  import opened NavChartSettings

  /** The KPI group the chart passes to its benchmark collaborators. */
  datatype KpiGroup = Nav

  /**
   * A selectable KPI or data source: the name sent to the fetch, and the
   * option's `label` (called `caption` here, `label` being a Dafny keyword),
   * shown in the tooltip.
   */
  datatype ChoiceOption = ChoiceOption(name: string, caption: string)

  /** What `handleBundledExport` hands to the export handler. */
  datatype ExportRequest = ExportRequest(zipFileName: string, tableExportPayload: seq<TableExport>,
                                         imagesExportPayload: ImagesExport)

  /** A call the chart makes into a collaborator. */
  datatype Call =
    | GetBenchmarkData(kpiName: string, sourceName: string, group: KpiGroup)
    | ClearBenchmarkData(group: KpiGroup)
    | ExportHandler(request: ExportRequest)

  class ChartController {
    // props that stay fixed for the life of the chart
    const reported: TimeSeries
    const nearCasting: Option<NavData>
    const entityName: Option<string>
    const hasGetBenchmarkData: bool
    const hasClearBenchmarkData: bool

    // the benchmark series prop, which arrives and changes over time
    var benchmarkSeries: Option<seq<Point>>

    // component state
    var lineChartKey: int
    var isBenchmarking: bool
    var activeKpi: Option<ChoiceOption>
    var activeSource: Option<ChoiceOption>
    var showBenchmarking: bool
    var activeDataKey: string
    var rangeIndexes: (int, int)
    var dataForExport: seq<Point>
    var benchmarkingRange: int
    var exportInProgress: bool

    // the calls made into collaborators, oldest first
    var calls: seq<Call>

    /**
     * The state invariant: the redraw key never goes below its start,
     * benchmark mode is on exactly when a KPI is chosen (its data may still be
     * pending), and a chosen KPI always comes with a chosen source.
     */
    predicate Valid()
      reads this
    {
      && lineChartKey >= 0
      && (isBenchmarking <==> activeKpi.Some?)
      && (activeKpi.Some? ==> activeSource.Some?)
    }

    /** The merged series the chart plots (`timeSeries.data`). */
    function Data(): seq<Point> {
      Merge(reported, nearCasting)
    }

    /** The input of the domain computation in the current state. */
    function Domain(): (d: DomainInput)
      reads this
      ensures BenchmarkIsAuthoritative(isBenchmarking, benchmarkSeries) ==>
        d.series == benchmarkSeries.value && d.window.None?
      ensures !BenchmarkIsAuthoritative(isBenchmarking, benchmarkSeries) ==>
        d.series == Data() && d.window == Some(rangeIndexes)
    {
      DomainSource(isBenchmarking, benchmarkSeries, Data(), rangeIndexes)
    }

    /** The tick type in the current state, `None` where the source would throw. */
    function CurrentTicksType(): (t: Option<TicksType>)
      reads this
      ensures BenchmarkIsAuthoritative(isBenchmarking, benchmarkSeries) ==>
        (t.Some? <==> 0 <= benchmarkingRange < |benchmarkSeries.value|)
      ensures BenchmarkIsAuthoritative(isBenchmarking, benchmarkSeries) && t.Some? ==>
        (t.value == Year <==> benchmarkSeries.value[benchmarkingRange].x - benchmarkSeries.value[0].x >= 3 * MsPerYear)
      ensures !BenchmarkIsAuthoritative(isBenchmarking, benchmarkSeries) && |Data()| > 0 ==>
        (t.Some? <==> rangeIndexes.0 <= rangeIndexes.1)
      ensures !BenchmarkIsAuthoritative(isBenchmarking, benchmarkSeries) && |Data()| > 0 && t.Some? ==>
        (t.value == Year <==> Data()[TickEndIndex(rangeIndexes, |Data()|)].x - Data()[0].x >= 3 * MsPerYear)
    {
      XAxisTicksType(isBenchmarking, benchmarkSeries, benchmarkingRange, Data(), rangeIndexes)
    }

    /** The KPI caption handed to the tooltip, `activeKpi?.label`. */
    function TooltipKpi(): (k: Option<string>)
      reads this
      ensures k.Some? <==> activeKpi.Some?
      ensures k.Some? ==> k.value == activeKpi.value.caption
    {
      match activeKpi
      case None => None
      case Some(o) => Some(o.caption)
    }

    /** The source caption handed to the tooltip, `activeSource?.label`. */
    function TooltipSource(): (s: Option<string>)
      reads this
      ensures s.Some? <==> activeSource.Some?
      ensures s.Some? ==> s.value == activeSource.value.caption
    {
      match activeSource
      case None => None
      case Some(o) => Some(o.caption)
    }

    /**
     * The first render: every useState initialiser, and the benchmark-range
     * effect's first run. The render reads the last reported point's date
     * unconditionally and throws without one, so a chart exists only for
     * non-empty reported data.
     */
    constructor (reported: TimeSeries, nearCasting: Option<NavData>, benchmarkSeries: Option<seq<Point>>,
                 entityName: Option<string>, hasGetBenchmarkData: bool, hasClearBenchmarkData: bool)
      requires NearCastingStart(reported).Some?
      ensures Valid()
      ensures this.reported == reported && this.nearCasting == nearCasting
      ensures this.benchmarkSeries == benchmarkSeries && this.entityName == entityName
      ensures this.hasGetBenchmarkData == hasGetBenchmarkData && this.hasClearBenchmarkData == hasClearBenchmarkData
      ensures lineChartKey == 0 && !isBenchmarking && !showBenchmarking
      ensures activeKpi.None? && activeSource.None? && activeDataKey == "NAV"
      ensures rangeIndexes == InitialRangeIndexes(|Merge(reported, nearCasting)|)
      ensures benchmarkingRange == InitialBenchmarkingRange(benchmarkSeries)
      ensures dataForExport == [] && !exportInProgress && calls == []
    {
      this.reported := reported;
      this.nearCasting := nearCasting;
      this.entityName := entityName;
      this.hasGetBenchmarkData := hasGetBenchmarkData;
      this.hasClearBenchmarkData := hasClearBenchmarkData;
      this.benchmarkSeries := benchmarkSeries;
      lineChartKey := 0;
      isBenchmarking := false;
      activeKpi := None;
      activeSource := None;
      showBenchmarking := false;
      activeDataKey := "NAV";
      rangeIndexes := InitialRangeIndexes(|Merge(reported, nearCasting)|);
      dataForExport := [];
      benchmarkingRange := InitialBenchmarkingRange(benchmarkSeries);
      exportInProgress := false;
      calls := [];
    }

    /**
     * A new benchmark series prop: the effect keyed on it resets
     * `benchmarkingRange` to the series' last index (0 without a series).
     */
    method OnBenchmarkSeriesChange(series: Option<seq<Point>>)
      modifies this`benchmarkSeries, this`benchmarkingRange
      ensures benchmarkSeries == series
      ensures benchmarkingRange == InitialBenchmarkingRange(series)
    {
      benchmarkSeries := series;
      benchmarkingRange := InitialBenchmarkingRange(series);
    }

    /**
     * `onBrushChange`: the export slice becomes `[startIndex, endIndex)` of the
     * merged series, in either mode; then only the authoritative window moves.
     */
    method OnBrushChange(startIndex: int, endIndex: int)
      requires Valid()
      modifies this`dataForExport, this`benchmarkingRange, this`rangeIndexes
      ensures Valid()
      ensures dataForExport == JsSlice(Data(), startIndex, endIndex)
      ensures BenchmarkIsAuthoritative(isBenchmarking, benchmarkSeries) ==>
        benchmarkingRange == endIndex - startIndex && rangeIndexes == old(rangeIndexes)
      ensures !BenchmarkIsAuthoritative(isBenchmarking, benchmarkSeries) ==>
        rangeIndexes == (startIndex, endIndex) && benchmarkingRange == old(benchmarkingRange)
      ensures BenchmarkIsAuthoritative(isBenchmarking, benchmarkSeries) ==> Domain() == old(Domain())
      ensures startIndex <= endIndex
              && (BenchmarkIsAuthoritative(isBenchmarking, benchmarkSeries) ==> endIndex - startIndex < |benchmarkSeries.value|)
              ==> CurrentTicksType().Some?
    {
      dataForExport := JsSlice(Data(), startIndex, endIndex);
      if isBenchmarking && benchmarkSeries.Some? {
        benchmarkingRange := endIndex - startIndex;
      } else {
        rangeIndexes := (startIndex, endIndex);
      }
    }

    /**
     * `onBenchmarkToggle`: the panel always flips; a benchmark being drawn is
     * switched off and its KPI cleared (the source stays chosen), and the
     * benchmark data is asked to be cleared.
     */
    method OnBenchmarkToggle()
      requires Valid()
      modifies this`showBenchmarking, this`isBenchmarking, this`activeKpi, this`calls
      ensures Valid()
      ensures showBenchmarking == !old(showBenchmarking)
      ensures !isBenchmarking && activeKpi.None?
      ensures old(isBenchmarking) ==>
        calls == old(calls) + (if hasClearBenchmarkData then [ClearBenchmarkData(Nav)] else [])
      ensures !old(isBenchmarking) ==> calls == old(calls) && activeKpi == old(activeKpi)
    {
      showBenchmarking := !showBenchmarking;
      if isBenchmarking {
        isBenchmarking := false;
        activeKpi := None;
        if hasClearBenchmarkData {
          calls := calls + [ClearBenchmarkData(Nav)];
        }
      }
    }

    /**
     * `onBenchmarkOptionChange`: the new KPI and source replace the old ones,
     * benchmarking is on, and the benchmark data is requested.
     */
    method OnBenchmarkOptionChange(kpi: ChoiceOption, source: ChoiceOption)
      requires Valid()
      modifies this`activeKpi, this`activeSource, this`isBenchmarking, this`calls
      ensures Valid()
      ensures activeKpi == Some(kpi) && activeSource == Some(source) && isBenchmarking
      ensures calls == old(calls) + (if hasGetBenchmarkData then [GetBenchmarkData(kpi.name, source.name, Nav)] else [])
    {
      activeKpi := Some(kpi);
      activeSource := Some(source);
      isBenchmarking := true;
      if hasGetBenchmarkData {
        calls := calls + [GetBenchmarkData(kpi.name, source.name, Nav)];
      }
    }

    /** `changeActiveDataKey`: the new metric, and a fresh key that forces the line to redraw. */
    method ChangeActiveDataKey(key: string)
      requires Valid()
      modifies this`activeDataKey, this`lineChartKey
      ensures Valid()
      ensures activeDataKey == key
      ensures lineChartKey > old(lineChartKey) && lineChartKey == old(lineChartKey) + 1
    {
      activeDataKey := key;
      lineChartKey := lineChartKey + 1;
    }

    /**
     * `handleBundledExport`: the zip name from the entity and the active
     * metric, the brushed rows (or the whole series when nothing is brushed),
     * handed to the export handler. When the handler fails, the source never
     * reaches the line that clears `exportInProgress`.
     */
    method HandleBundledExport(handlerFails: bool) returns (request: ExportRequest)
      modifies this`exportInProgress, this`calls
      ensures request.zipFileName == ZipFileName(entityName, activeDataKey)
      ensures request.tableExportPayload
           == GetTableExportPayload(ExportRows(dataForExport, Data()), activeDataKey == "NAV", request.zipFileName)
      ensures request.imagesExportPayload == GetImagesExportPayload(request.zipFileName)
      ensures calls == old(calls) + [ExportHandler(request)]
      ensures exportInProgress == handlerFails
    {
      exportInProgress := true;
      var isNavActive := activeDataKey == "NAV";
      var zipFileName := ZipFileName(entityName, activeDataKey);
      var rows := ExportRows(dataForExport, Data());
      request := ExportRequest(zipFileName, GetTableExportPayload(rows, isNavActive, zipFileName),
                               GetImagesExportPayload(zipFileName));
      calls := calls + [ExportHandler(request)];
      if !handlerFails {
        exportInProgress := false;
      }
    }
  }

  /** A client scenario: brushing in primary mode and exporting ships the brushed rows without the window's last point. */
  method BrushAndExportScenario(p0: Point, p1: Point, p2: Point, p3: Point)
  {
    var c := new ChartController(TimeSeries(Some([p0, p1, p2, p3])), None, None, Some("Fund"), true, true);
    assert c.Data() == [p0, p1, p2, p3];
    assert c.rangeIndexes == (0, 3);

    c.OnBrushChange(1, 2);
    assert c.rangeIndexes == (1, 2);
    JsSliceInRange(c.Data(), 1, 2);
    assert c.dataForExport == [p1];
    var req := c.HandleBundledExport(false);
    assert req.tableExportPayload[0].data == [p1];
  }

  /**
   * A client scenario: in benchmark mode the brush moves only the benchmark
   * window; toggling the benchmark off keeps the source chosen and leaves the
   * benchmark window where the brush put it.
   */
  method BenchmarkScenario(p0: Point, b0: Point, b1: Point, b2: Point, kpi: ChoiceOption, source: ChoiceOption)
  {
    var c := new ChartController(TimeSeries(Some([p0])), None, Some([b0, b1, b2]), None, true, true);
    assert c.benchmarkingRange == 2;
    c.OnBenchmarkOptionChange(kpi, source);
    c.OnBrushChange(0, 1);
    assert c.benchmarkingRange == 1 && c.rangeIndexes == (0, 0);
    c.OnBenchmarkToggle();
    assert !c.isBenchmarking && c.activeKpi.None? && c.activeSource == Some(source);
    assert c.benchmarkingRange == 1;
    assert c.TooltipKpi().None? && c.TooltipSource() == Some(source.caption);
    assert c.calls == [GetBenchmarkData(kpi.name, source.name, Nav), ClearBenchmarkData(Nav)];
  }
}
