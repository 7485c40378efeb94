/**
 * The export descriptors of the NAV chart: the table settings for the NAV
 * and jCurve views, the table export payload and the four image options.
 */
module NavChartSettings {
  import opened Wrappers
  import opened Series

  /** One `headerMapping` entry: a data column and its header label (`label` in the table). */
  datatype Column = Column(columnId: string, headerLabel: string)

  /** The `meta.columns` entry of one column. */
  datatype ColumnMeta = ColumnMeta(formatter: Option<string>, align: string)

  datatype TableSettings = TableSettings(
    fileName: string,
    name: string,
    columnVisibility: map<string, bool>,
    headerMapping: seq<Column>,
    columnOrder: seq<string>,
    meta: map<string, ColumnMeta>)

  /** One entry of the table export payload. */
  datatype TableExport = TableExport(data: seq<Point>, mappings: seq<Column>, settings: TableSettings)

  /** One image rendering to export. */
  datatype ImageOption = ImageOption(fileName: string, mimeType: string, ext: string,
                                     bgColor: string, elsToFilter: seq<string>)

  datatype ImagesExport = ImagesExport(id: string, fileName: string, opts: seq<ImageOption>)

  const HeaderMapping: seq<Column> := [
    Column("NAV", "Nav"),
    Column("jCurve", "jCurve"),
    Column("Distributions", "Distribution"),
    Column("Contributions", "Contributions"),
    Column("x", "Date")
  ]

  const ColumnOrder: seq<string> := ["NAV", "jCurve", "Distributions", "Contributions", "x"]

  const Meta: map<string, ColumnMeta> := map[
    "NAV" := ColumnMeta(None, "right"),
    "jCurve" := ColumnMeta(None, "right"),
    "Distributions" := ColumnMeta(None, "right"),
    "Contributions" := ColumnMeta(None, "right"),
    "x" := ColumnMeta(Some("numFmt:dd-mm-yyyy"), "right")
  ]

  /** The chart elements left out of every exported image. */
  const FilteredElements: seq<string> := [
    "performance-chart-brush",
    "performance-chart-export",
    "performance-benchmark-toggle",
    "recharts-tooltip-wrapper"
  ]

  /** The column ids of a header mapping, in order. */
  function ColumnIds(cols: seq<Column>): (ids: seq<string>)
    ensures |ids| == |cols|
    ensures forall i :: 0 <= i < |cols| ==> ids[i] == cols[i].columnId
  {
    if cols == [] then [] else [cols[0].columnId] + ColumnIds(cols[1..])
  }

  predicate NoDuplicates(s: seq<string>) {
    forall i, j :: 0 <= i < j < |s| ==> s[i] != s[j]
  }

  /** The first letters of the five column ids already tell them apart. */
  lemma ColumnOrderHasNoDuplicates()
    ensures |ColumnOrder| == 5 && NoDuplicates(ColumnOrder)
  {
    forall i, j | 0 <= i < j < |ColumnOrder| ensures ColumnOrder[i] != ColumnOrder[j] {
      assert ColumnOrder[i][0] != ColumnOrder[j][0];
    }
  }

  /**
   * The header mapping names exactly the columns of the column order, in
   * the same order, and every column has its meta entry; only the date
   * column `x` carries a cell formatter.
   */
  lemma ColumnsAreConsistent()
    ensures ColumnIds(HeaderMapping) == ColumnOrder
    ensures forall c :: c in ColumnOrder <==> c in Meta
    ensures Meta["x"].formatter == Some("numFmt:dd-mm-yyyy")
    ensures forall c :: c in Meta && c != "x" ==> Meta[c].formatter.None?
  {
    var ids := ColumnIds(HeaderMapping);
    assert |ids| == |ColumnOrder|;
    forall i | 0 <= i < 5 ensures ids[i] == ColumnOrder[i] { }
  }

  /** The columns a settings object hides: those whose visibility is `false`. */
  function HiddenColumns(s: TableSettings): set<string> {
    set c | c in s.columnVisibility && !s.columnVisibility[c]
  }

  /** `fundPerformanceNavChartSettings`. */
  function NavChartSettings(zipFileName: string): (s: TableSettings)
    ensures s.fileName == zipFileName && s.name == "Fund Performance NAV"
    ensures s.headerMapping == HeaderMapping && s.columnOrder == ColumnOrder && s.meta == Meta
    ensures HiddenColumns(s) == {"jCurve"}
    ensures s.columnVisibility == map["jCurve" := false]
  {
    TableSettings(zipFileName, "Fund Performance NAV", map["jCurve" := false], HeaderMapping, ColumnOrder, Meta)
  }

  /** `fundPerformanceJCurveChartSettings`. */
  function JCurveChartSettings(zipFileName: string): (s: TableSettings)
    ensures s.fileName == zipFileName && s.name == "Fund Performance jCurve"
    ensures s.headerMapping == HeaderMapping && s.columnOrder == ColumnOrder && s.meta == Meta
    ensures HiddenColumns(s) == {"NAV"}
    ensures s.columnVisibility == map["NAV" := false]
  {
    TableSettings(zipFileName, "Fund Performance jCurve", map["NAV" := false], HeaderMapping, ColumnOrder, Meta)
  }

  /**
   * `getTableExportPayload`: one entry carrying the rows unchanged, the shared
   * header mapping, and the settings that hide the metric not on screen.
   */
  function GetTableExportPayload(data: seq<Point>, isNavActive: bool, zipFileName: string): (p: seq<TableExport>)
    ensures |p| == 1
    ensures p[0].data == data
    ensures p[0].mappings == p[0].settings.headerMapping == HeaderMapping
    ensures p[0].settings.columnOrder == ColumnOrder && p[0].settings.meta == Meta
    ensures p[0].settings.fileName == zipFileName
    ensures HiddenColumns(p[0].settings) == if isNavActive then {"jCurve"} else {"NAV"}
    ensures p[0].settings.name == if isNavActive then "Fund Performance NAV" else "Fund Performance jCurve"
  {
    var settings := if isNavActive then NavChartSettings(zipFileName) else JCurveChartSettings(zipFileName);
    [TableExport(data, settings.headerMapping, settings)]
  }

  /** The one hidden column is a real column and the other metric stays visible. */
  lemma HiddenColumnIsTheOtherMetric(isNavActive: bool, zipFileName: string, data: seq<Point>)
    ensures var s := GetTableExportPayload(data, isNavActive, zipFileName)[0].settings;
      var hidden := if isNavActive then "jCurve" else "NAV";
      var shown := if isNavActive then "NAV" else "jCurve";
      HiddenColumns(s) == {hidden} && hidden in s.columnOrder && shown in s.columnOrder && shown !in HiddenColumns(s)
  {
  }

  /** The file name of an image option for a background colour. */
  function ImageFileName(zipFileName: string, bgColor: string): (f: string)
    ensures |f| > |zipFileName| && f[..|zipFileName|] == zipFileName
    ensures bgColor == "transparent" <==> f[|zipFileName|..] == "_TransparentBackground"
    ensures bgColor != "transparent" ==> f[|zipFileName|..] == "_WithBackground"
  {
    zipFileName + (if bgColor == "transparent" then "_TransparentBackground" else "_WithBackground")
  }

  /** The (type, background) pair of each option, in order. */
  function Kinds(opts: seq<ImageOption>): (k: seq<(string, string)>)
    ensures |k| == |opts|
    ensures forall i :: 0 <= i < |opts| ==> k[i] == (opts[i].mimeType, opts[i].bgColor)
  {
    if opts == [] then [] else [(opts[0].mimeType, opts[0].bgColor)] + Kinds(opts[1..])
  }

  /** `getImagesExportPayload`. */
  function GetImagesExportPayload(zipFileName: string): (p: ImagesExport)
    ensures p.id == "performance-chart" && p.fileName == zipFileName
    ensures |p.opts| == 4
    ensures forall o :: o in p.opts ==> o.fileName == ImageFileName(zipFileName, o.bgColor)
    ensures forall o :: o in p.opts ==> o.elsToFilter == FilteredElements
    ensures forall o :: o in p.opts ==>
      (o.mimeType == "image/svg+xml" && o.ext == "svg") || (o.mimeType == "image/png" && o.ext == "png")
    ensures Kinds(p.opts) == [("image/svg+xml", "transparent"), ("image/svg+xml", "#202020"),
                              ("image/png", "transparent"), ("image/png", "#202020")]
  {
    ImagesExport("performance-chart", zipFileName, [
      ImageOption(zipFileName + "_TransparentBackground", "image/svg+xml", "svg", "transparent", FilteredElements),
      ImageOption(zipFileName + "_WithBackground", "image/svg+xml", "svg", "#202020", FilteredElements),
      ImageOption(zipFileName + "_TransparentBackground", "image/png", "png", "transparent", FilteredElements),
      ImageOption(zipFileName + "_WithBackground", "image/png", "png", "#202020", FilteredElements)
    ])
  }
}
