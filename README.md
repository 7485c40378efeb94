# Fund performance NAV chart: view state, tooltip and export descriptors

A Dafny model of the logic around the fund performance NAV chart: a chart
of reported net asset value (or jCurve) over time, continued by
"near-casting" (forecast) points, with an optional benchmark series, a
brush that selects a range of points, a tooltip and a bundled table/image
export.

- `Series` (`series.dfy`): chart points (`x` in integer milliseconds, metric
  values by key), the optional `data`/`timeSeries` wrappers of the inputs,
  and JavaScript's `Array.prototype.slice` with its negative and clamped
  bounds.
- `NavChart` (`nav_chart.dfy`): the pure derivations of the chart
  component: the merged series, `isNearCastingEmpty`, the start of the
  near-casting region, the initial brush windows, the series that feeds the
  domain computation, the Year/Quarter tick rule and its index bound, the
  axis format, the export file-name stem and the rows to export.
- `NavChartState` (`nav_chart_controller.dfy`): the component's state as a
  class (`ChartController`) whose methods are the handlers `onBrushChange`,
  `onBenchmarkToggle`, `onBenchmarkOptionChange`, `changeActiveDataKey`,
  `handleBundledExport` and the effect that resets the benchmark window when
  the benchmark series changes. Calls into collaborators (fetching and
  clearing benchmark data, the export handler) are appended to `calls`.
  The invariant `Valid()` (benchmark mode is on exactly when a KPI is
  chosen, whether or not its data has arrived, and a chosen KPI comes with
  a chosen source) is kept by every handler.
- `NavTooltip` (`nav_tooltip.dfy`): the `Keys`/`NCKeys` tables, the junction
  test `isLastReportedPoint`, the payload filter, the "NC " label
  stripping, the value-format choice and the date header.
- `NavChartSettings` (`nav_chart_settings.dfy`): the header mapping, column
  order and column meta, the NAV and jCurve table settings, the table
  export payload and the four image export options.

Behaviours of the code that the model keeps as written:

- The merge only concatenates and adds no marker of its own: forecast
  values are told apart by the `NC `-prefixed keys the near-casting input
  already carries, and the shaded forecast region starts at the last
  reported date (`NavChart.MergeKeepsBothParts`,
  `NavChart.NearCastingStartIsJunction`).
- The brush's export slice is end-exclusive while the stored window is
  inclusive, so the last point of a brushed window is not exported
  (`NavChart.ExportSliceOmitsWindowEnd`). Brush indexes are stored as given,
  not clamped.
- The tick span is measured from point 0 to the window's width, not from
  the window's start (`NavChart.TicksTypeIgnoresWindowStart`).
- The cut-off is 3 × 3.154e10 ms, so three calendar years without a leap
  day resolve to Quarter and three with one resolve to Year
  (`NavChart.ThreeCalendarYears`).
- Switching the benchmark panel off clears the KPI but keeps the chosen
  source and leaves `benchmarkingRange` where it was; only a new benchmark
  series resets it.

## Model

| member | source | states |
|---|---|---|
| `Series.DataOrEmpty` | fund-performance-nav-chart/FundPerformanceNavChart.tsx:90 | the reported points, or none when `data` is missing |
| `Series.PointsOf` | fund-performance-nav-chart/FundPerformanceNavChart.tsx:91 | the near-casting `data` array when every optional level is present, and no points otherwise |
| `Series.SliceBound` | fund-performance-nav-chart/FundPerformanceNavChart.tsx:208 | a `slice` argument becomes a position in `[0, len]`: kept when in range, counted back from the end when negative, clamped otherwise |
| `Series.JsSlice` | fund-performance-nav-chart/FundPerformanceNavChart.tsx:208 | `slice` returns the contiguous run starting at the normalised start, of length end minus start when positive, else empty |
| `Series.JsSliceInRange` | fund-performance-nav-chart/FundPerformanceNavChart.tsx:208 | within bounds `slice(s, e)` is the end-exclusive subsequence, `e - s` points long |
| `Series.JsSliceEmptyWhenInverted` | fund-performance-nav-chart/FundPerformanceNavChart.tsx:208 | an inverted or empty brush range exports nothing |
| `NavChart.Merge` | fund-performance-nav-chart/FundPerformanceNavChart.tsx:87-95 | the merged series has as many points as both inputs together |
| `NavChart.MergeKeepsBothParts` | fund-performance-nav-chart/FundPerformanceNavChart.tsx:87-95 | the reported prefix is unchanged and each near-casting point follows it as an equal point, so no key is renamed |
| `NavChart.MergeWithoutNearCasting` | fund-performance-nav-chart/FundPerformanceNavChart.tsx:87-95 | without near-casting points the merged series is the reported series |
| `NavChart.IsNearCastingEmpty` | fund-performance-nav-chart/FundPerformanceNavChart.tsx:138-139 | the flag holds iff the near-casting object, its time series or its data is missing, or the data has no points |
| `NavChart.NearCastingEmptyIffNothingAppended` | fund-performance-nav-chart/FundPerformanceNavChart.tsx:138-139 | the flag holds exactly when the merge adds no point |
| `NavChart.NearCastingStart` | fund-performance-nav-chart/FundPerformanceNavChart.tsx:140-141 | the last reported point's date when there is one; the source throws otherwise (`None`) |
| `NavChart.NearCastingStartIsJunction` | fund-performance-nav-chart/FundPerformanceNavChart.tsx:140-141 | the near-casting region starts at the last reported point of the merged series |
| `NavChart.InitialRangeIndexes` | fund-performance-nav-chart/FundPerformanceNavChart.tsx:104-107 | the first window starts at 0 and covers every point, or is `[0, 0]` for an empty series |
| `NavChart.InitialBenchmarkingRange` | fund-performance-nav-chart/FundPerformanceNavChart.tsx:109-111 | 0 without a benchmark series, otherwise its length minus one (-1 for an empty one) |
| `NavChart.InitialBenchmarkingRangeIsLastIndex` | fund-performance-nav-chart/FundPerformanceNavChart.tsx:120-124 | for a non-empty benchmark series the (re)set range is a valid index, the last one |
| `NavChart.BenchmarkIsAuthoritative` | fund-performance-nav-chart/FundPerformanceNavChart.tsx:132 | the benchmark series drives the chart only in benchmark mode with its data arrived; while it is pending the primary window stays authoritative |
| `NavChart.DomainSource` | fund-performance-nav-chart/FundPerformanceNavChart.tsx:131-136 | benchmark mode with data uses the whole benchmark series and no window; otherwise the merged series with `rangeIndexes` |
| `NavChart.DomainSourceIgnoresInactiveWindow` | fund-performance-nav-chart/FundPerformanceNavChart.tsx:131-136 | in benchmark mode `rangeIndexes` does not affect the domain; in primary mode the benchmark series does not |
| `NavChart.YearsRange` | fund-performance-nav-chart/FundPerformanceNavChart.tsx:180 | the floor of span / 3.154e10: the largest whole number of approximate years not above the span |
| `NavChart.TicksTypeForSpan` | fund-performance-nav-chart/FundPerformanceNavChart.tsx:180-183 | Year iff the span is at least 3 × 3.154e10 ms, Quarter otherwise |
| `NavChart.TicksTypeMonotone` | fund-performance-nav-chart/FundPerformanceNavChart.tsx:180-183 | widening the span never turns Year into Quarter |
| `NavChart.TicksTypeBoundary` | fund-performance-nav-chart/FundPerformanceNavChart.tsx:180-183 | the cut-off span itself is Year, one millisecond less is Quarter, a zero span is Quarter |
| `NavChart.ThreeCalendarYears` | fund-performance-nav-chart/FundPerformanceNavChart.tsx:180-183 | 1095 days give Quarter, 1096 days give Year |
| `NavChart.AxisFormat` | fund-performance-nav-chart/FundPerformanceNavChart.tsx:186-189 | `'yyyy'` iff Year, `"QQ 'YY"` iff Quarter |
| `NavChart.TickEndIndex` | fund-performance-nav-chart/FundPerformanceNavChart.tsx:168-169 | the window's width capped at the last index; a valid index for a non-empty series and a non-negative width |
| `NavChart.XAxisTicksType` | fund-performance-nav-chart/FundPerformanceNavChart.tsx:167-184 | defined exactly when the index read is inside the array (benchmark range in bounds, or non-negative width, or empty chart); Year iff the span from point 0 to the point read (benchmark point `benchmarkingRange`, or chart point `TickEndIndex`) is at least three approximate years; an empty chart gives Quarter |
| `NavChart.TicksTypeIgnoresWindowStart` | fund-performance-nav-chart/FundPerformanceNavChart.tsx:168-177 | in primary mode shifting the window leaves the tick type unchanged: the span starts at point 0 |
| `NavChart.PrimaryTicksSpan` | fund-performance-nav-chart/FundPerformanceNavChart.tsx:168-177 | whenever the benchmark is not authoritative (off, or its data pending), for a non-empty series and an ordered window the tick type is defined and is Year iff point `min(width, len-1)` is at least three approximate years after point 0 |
| `NavChart.ExportSliceOmitsWindowEnd` | fund-performance-nav-chart/FundPerformanceNavChart.tsx:206-213 | a valid brushed window exports one point fewer than it shows: everything but the point at `endIndex` |
| `NavChart.ZipFileName` | fund-performance-nav-chart/FundPerformanceNavChart.tsx:251-254 | the name is the entity name ("undefined" when missing), then `_FundPerformance_`, then `Nav` iff the active key is `NAV` and `jCurve` otherwise, with exactly that length |
| `NavChart.ExportRows` | fund-performance-nav-chart/FundPerformanceNavChart.tsx:256-257 | the brushed slice when non-empty, else the whole merged series; empty only when both are |
| `Wrappers.TemplateText` | fund-performance-nav-chart/FundPerformanceNavChart.tsx:252-254 | an optional string in a template literal prints as itself, or as "undefined" when missing |
| `NavChartState.ChartController.TooltipKpi` | fund-performance-nav-chart/FundPerformanceNavChart.tsx:523 | the tooltip's KPI caption is the chosen KPI's label, missing when none is chosen |
| `NavChartState.ChartController.TooltipSource` | fund-performance-nav-chart/FundPerformanceNavChart.tsx:524 | the tooltip's source caption is the chosen source's label, missing when none is chosen |
| `NavChartState.ChartController.Domain` | fund-performance-nav-chart/FundPerformanceNavChart.tsx:131-136 | in the current state: the whole benchmark series when it is authoritative, otherwise the merged series with `rangeIndexes` |
| `NavChartState.ChartController.CurrentTicksType` | fund-performance-nav-chart/FundPerformanceNavChart.tsx:167-184 | in the current state: defined iff the index read is in range; Year iff the measured span (benchmark point 0 to `benchmarkingRange`, or chart point 0 to the capped window width) is at least three approximate years |
| `NavChartState.ChartController.constructor` | fund-performance-nav-chart/FundPerformanceNavChart.tsx:97-141 | requires non-empty reported data (the render throws otherwise); the initial state: key 0, benchmark off, no KPI or source, `NAV` active, full windows, nothing to export, no calls |
| `NavChartState.ChartController.OnBenchmarkSeriesChange` | fund-performance-nav-chart/FundPerformanceNavChart.tsx:120-124 | a new benchmark series resets `benchmarkingRange` to its last index (0 without one) |
| `NavChartState.ChartController.OnBrushChange` | fund-performance-nav-chart/FundPerformanceNavChart.tsx:206-213 | the export slice becomes `[start, end)` of the merged series in both modes; in benchmark mode only `benchmarkingRange` moves (to `end - start`) and the domain input is unchanged, otherwise only `rangeIndexes` moves (to `[start, end]`); an ordered brush (in benchmark mode, one narrower than the benchmark series) leaves the tick type defined |
| `NavChartState.ChartController.OnBenchmarkToggle` | fund-performance-nav-chart/FundPerformanceNavChart.tsx:223-230 | the panel flips; benchmarking ends off with no KPI, the source kept, and a clear call is made only if it was on |
| `NavChartState.ChartController.OnBenchmarkOptionChange` | fund-performance-nav-chart/FundPerformanceNavChart.tsx:232-246 | KPI and source replaced, benchmarking on, the benchmark data requested by the options' names |
| `NavChartState.ChartController.ChangeActiveDataKey` | fund-performance-nav-chart/FundPerformanceNavChart.tsx:126-129 | the key is set and `lineChartKey` strictly increases by one |
| `NavChartState.ChartController.HandleBundledExport` | fund-performance-nav-chart/FundPerformanceNavChart.tsx:248-270 | the export handler receives the zip name, the table payload of the rows to export and the image payload; `exportInProgress` stays set iff the handler fails |
| `NavTooltip.PrefixAll` | fund-performance-nav-chart/components/FundPerformanceNavTooltip.tsx:19 | mapping the prefix keeps the number of keys |
| `NavTooltip.NCKeysArePrefixedKeys` | fund-performance-nav-chart/components/FundPerformanceNavTooltip.tsx:18-19 | `NCKeys` is `Keys` with "NC " in front of each key, same length and order |
| `NavTooltip.KeyTablesAreDisjoint` | fund-performance-nav-chart/components/FundPerformanceNavTooltip.tsx:18-19 | no key is both a reported and a near-casting key |
| `NavTooltip.IndexOf` | fund-performance-nav-chart/components/FundPerformanceNavTooltip.tsx:69 | the first position where the pattern occurs, or none when it occurs nowhere |
| `NavTooltip.Contains` | fund-performance-nav-chart/components/FundPerformanceNavTooltip.tsx:39 | `includes` holds iff the pattern occurs at some position |
| `NavTooltip.RemoveFirst` | fund-performance-nav-chart/components/FundPerformanceNavTooltip.tsx:69 | `replace(pat, '')` shortens the string by the pattern's length iff the pattern occurs, and leaves its length otherwise |
| `NavTooltip.StripNC` | fund-performance-nav-chart/components/FundPerformanceNavTooltip.tsx:69 | a name without "NC " is shown unchanged; one with it is shown three characters shorter |
| `NavTooltip.RemoveFirstCutsAtIndexOf` | fund-performance-nav-chart/components/FundPerformanceNavTooltip.tsx:69 | `replace(pat, '')` removes exactly the first occurrence and leaves a string without one unchanged |
| `NavTooltip.StripNCProperties` | fund-performance-nav-chart/components/FundPerformanceNavTooltip.tsx:69 | a near-casting name is shown without its prefix; a name without "NC " is shown unchanged |
| `NavTooltip.StripNCOfNCKeys` | fund-performance-nav-chart/components/FundPerformanceNavTooltip.tsx:69 | each near-casting key is labelled as its reported key |
| `NavTooltip.KeyIn` | fund-performance-nav-chart/components/FundPerformanceNavTooltip.tsx:52 | `includes` on a key table holds iff the item has a data key equal to some entry of the table |
| `NavTooltip.FindKeyIn` | fund-performance-nav-chart/components/FundPerformanceNavTooltip.tsx:34-36 | `!!find` over the payload holds iff some item's data key is in the table |
| `NavTooltip.IsLastReportedPoint` | fund-performance-nav-chart/components/FundPerformanceNavTooltip.tsx:34-36 | the junction test holds iff some item has a near-casting key and some item has a reported key |
| `NavTooltip.Keep` | fund-performance-nav-chart/components/FundPerformanceNavTooltip.tsx:49-53 | filtering never lengthens the payload |
| `NavTooltip.FilterKeepsAllAwayFromJunction` | fund-performance-nav-chart/components/FundPerformanceNavTooltip.tsx:49-53 | away from the junction every item is listed, in order |
| `NavTooltip.FilterDropsNCAtJunction` | fund-performance-nav-chart/components/FundPerformanceNavTooltip.tsx:49-53 | at the junction no near-casting item is listed, every other item is, in original order, with repeats (the length drops by exactly the number of near-casting items), and a reported item remains |
| `NavTooltip.FilterPayload` | fund-performance-nav-chart/components/FundPerformanceNavTooltip.tsx:49-53 | the listed items are hovered items, never more of them than were hovered |
| `NavTooltip.CountNC` | fund-performance-nav-chart/components/FundPerformanceNavTooltip.tsx:52 | the number of items whose data key is a near-casting key, at most the payload's length |
| `NavTooltip.KpiFormat` | fund-performance-nav-chart/components/FundPerformanceNavTooltip.tsx:72 | `MOIC` gets `'.2f'`, every other metric the tooltip format |
| `NavTooltip.NearCastingMoicUsesTooltipFormat` | fund-performance-nav-chart/components/FundPerformanceNavTooltip.tsx:72 | the rule matches the name exactly, so `NC MOIC` keeps the tooltip format |
| `NavTooltip.BenchmarkFormat` | fund-performance-nav-chart/components/FundPerformanceNavTooltip.tsx:92-96 | `benchmarking_moic` gets no format, every other benchmark item the tooltip format |
| `NavTooltip.IsBenchmarkItem` | fund-performance-nav-chart/components/FundPerformanceNavTooltip.tsx:55 | an item is a benchmark item iff it has a data key in which `benchmarking` occurs |
| `NavTooltip.BenchmarkCaption` | fund-performance-nav-chart/components/FundPerformanceNavTooltip.tsx:89 | the caption is the KPI text, `, `, the source text and ` :` |
| `NavTooltip.HeaderOf` | fund-performance-nav-chart/components/FundPerformanceNavTooltip.tsx:39-47 | the header is omitted iff the first item's data key contains `benchmarking`; otherwise the point label, the `dateLabel` field or the formatted date |
| `NavTooltip.RowOf` | fund-performance-nav-chart/components/FundPerformanceNavTooltip.tsx:54-101 | a metric row, labelled without "NC ", for a non-benchmark item; a benchmark row with the point's date and the KPI/source caption otherwise; format by item name; the value passes through |
| `NavTooltip.Tooltip` | fund-performance-nav-chart/components/FundPerformanceNavTooltip.tsx:33-106 | nothing unless active with a non-empty payload; otherwise the header chosen from the first item and one row per filtered item, in order |
| `NavChartSettings.ColumnIds` | fund-performance-nav-chart/FundPerformanceNavChartSettings.ts:3-24 | the column ids of the header mapping, one per entry, in order |
| `NavChartSettings.ColumnOrderHasNoDuplicates` | fund-performance-nav-chart/FundPerformanceNavChartSettings.ts:26 | five columns, no duplicates |
| `NavChartSettings.ColumnsAreConsistent` | fund-performance-nav-chart/FundPerformanceNavChartSettings.ts:3-57 | the header mapping lists exactly the column order's columns in the same order, each has meta, only `x` has a formatter |
| `NavChartSettings.NavChartSettings` | fund-performance-nav-chart/FundPerformanceNavChartSettings.ts:58-69 | file name is the zip name, named "Fund Performance NAV", hides only `jCurve`, shares the header mapping, column order and meta |
| `NavChartSettings.JCurveChartSettings` | fund-performance-nav-chart/FundPerformanceNavChartSettings.ts:71-82 | file name is the zip name, named "Fund Performance jCurve", hides only `NAV`, shares the header mapping, column order and meta |
| `NavChartSettings.GetTableExportPayload` | fund-performance-nav-chart/FundPerformanceNavChartSettings.ts:84-100 | one entry whose data is the input unchanged and whose mappings are the settings' header mapping; the settings hide the metric not active |
| `NavChartSettings.HiddenColumnIsTheOtherMetric` | fund-performance-nav-chart/FundPerformanceNavChartSettings.ts:84-100 | the hidden column is a real column and the active metric stays visible |
| `NavChartSettings.ImageFileName` | fund-performance-nav-chart/FundPerformanceNavChartSettings.ts:108-144 | the zip name followed by `_TransparentBackground` iff the background is `transparent`, by `_WithBackground` otherwise |
| `NavChartSettings.Kinds` | fund-performance-nav-chart/FundPerformanceNavChartSettings.ts:106-155 | the (type, background) pair of each option, in order |
| `NavChartSettings.GetImagesExportPayload` | fund-performance-nav-chart/FundPerformanceNavChartSettings.ts:102-157 | id `performance-chart`, the zip name, four options (svg and png, each once transparent and once `#202020`), file names by background, the same four filtered elements |

## Left out

- Domain and tick computation: `calcDomainRange`, `calcXaxisTicks`, `dateToMilliseconds` and `arrayOfStringValuesToDateConverter` are not part of this model; the model stops at what they are called with (`NavChart.DomainSource`), reads dates as integer milliseconds and takes the converted chart data to be the merged series and the converted benchmark data to be the benchmark series' own `data` array. The benchmark prop is modelled as that array alone, so a present benchmark series without `data`, on which the code throws when it reads `.data` unguarded, cannot be represented.
- Dates and floating point: timestamps are integer milliseconds; `(end - start) / 3.154e10` is modelled as exact floor division, which agrees with the floating-point result for realistic spans.
- Hooks and React scheduling: `useMultiAxesTicksCalculation`, `useChartHover`, `useChartAnimated`, memo and effect dependency lists (such as `xAxisTicksType` not listing `isBenchmarking`) and the staleness they may cause. Derived values are computed from the current state.
- KPI and source options keep only their `name` (sent to the fetch) and `label` (shown in the tooltip); other fields of the option objects are not modelled.
- The chart itself exists only for non-empty reported data: its render reads the last reported point's date unconditionally (`NavChart.NearCastingStart` is `None` otherwise), so `ChartController`'s constructor requires it. The empty-series cases of `NavChart.InitialRangeIndexes` and `NavChart.XAxisTicksType` are stated as the code computes them, but a rendered chart never reaches them.
- Props other than the benchmark series are fixed for the life of a `ChartController`.
- Rendering: all JSX, recharts components, the legend, the loader, `selectedBar`/`activeCharts` hover state, the tooltip markup and NavXAxisTick.tsx; translation `t(...)`, `formatWithLocale` and `ValueFormat` (row labels are the untranslated keys).
- Collaborators: `getBenchmarkData`, `clearBenchmarkData` and `exportHandler` are recorded as calls; what they do is not modelled, and the await in `handleBundledExport` is one step (no handler interleaves with it).
- The export button is disabled while the benchmark panel is shown; that is a rendering guard, so the export handler itself has no such condition.
