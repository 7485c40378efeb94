/**
 * The time-series values the NAV chart is fed with, and JavaScript's
 * `Array.prototype.slice`, which the chart uses to cut a brushed range.
 */
module Series {
  import opened Wrappers

  /** One chart point: its date `x` in integer milliseconds and its metric values by key. */
  datatype Point = Point(x: int, values: map<string, real>)

  /** A `{data}` object whose `data` array may be missing. */
  datatype TimeSeries = TimeSeries(data: Option<seq<Point>>)

  /** A NAV data object whose `timeSeries` may be missing (the near-casting input). */
  datatype NavData = NavData(timeSeries: Option<TimeSeries>)

  /** `ts.data || []`. */
  function DataOrEmpty(ts: TimeSeries): (r: seq<Point>)
    ensures ts.data.Some? ==> r == ts.data.value
    ensures ts.data.None? ==> r == []
  {
    ts.data.GetOr([])
  }

  /** `nd?.timeSeries?.data || []`: the points of an optional NAV data object. */
  function PointsOf(nd: Option<NavData>): (r: seq<Point>)
    ensures nd.Some? && nd.value.timeSeries.Some? && nd.value.timeSeries.value.data.Some? ==>
      r == nd.value.timeSeries.value.data.value
    ensures r != [] <==> nd.Some? && nd.value.timeSeries.Some? && nd.value.timeSeries.value.data.Some?
                         && nd.value.timeSeries.value.data.value != []
  {
    match nd
    case None => []
    case Some(d) =>
      match d.timeSeries
      case None => []
      case Some(ts) => DataOrEmpty(ts)
  }

  /**
   * How `slice` turns one argument into a position in `[0, len]`: a negative
   * argument counts back from the end, and both ends are clamped.
   */
  function SliceBound(i: int, len: nat): (k: nat)
    ensures k <= len
    ensures 0 <= i <= len ==> k == i
    ensures i > len ==> k == len
    ensures i < 0 ==> k == (if len + i < 0 then 0 else len + i)
  {
    if i < 0 then (if len + i < 0 then 0 else len + i)
    else if i > len then len
    else i
  }

  /** `s.slice(start, end)`: the points from `start` up to, but excluding, `end`. */
  function JsSlice<T>(s: seq<T>, start: int, end: int): (r: seq<T>)
    ensures |r| <= |s|
    ensures SliceBound(start, |s|) + |r| <= |s|
    ensures r == s[SliceBound(start, |s|)..SliceBound(start, |s|) + |r|]
    ensures |r| == if SliceBound(start, |s|) < SliceBound(end, |s|)
                   then SliceBound(end, |s|) - SliceBound(start, |s|) else 0
  {
    var from, to := SliceBound(start, |s|), SliceBound(end, |s|);
    if from < to then s[from..to] else []
  }

  /** Within bounds, `slice` is Dafny's end-exclusive subsequence. */
  lemma JsSliceInRange<T>(s: seq<T>, start: int, end: int)
    requires 0 <= start <= end <= |s|
    ensures JsSlice(s, start, end) == s[start..end]
    ensures |JsSlice(s, start, end)| == end - start
  {
  }

  /** A reversed or empty range slices to nothing. */
  lemma JsSliceEmptyWhenInverted<T>(s: seq<T>, start: int, end: int)
    requires 0 <= end <= start
    ensures JsSlice(s, start, end) == []
  {
  }
}
