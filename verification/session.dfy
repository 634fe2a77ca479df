/** The session state held by the `App` component: one field per `useState`
    hook, plus a field-level view used to state which fields a handler resets
    and which it keeps. */
module Session {
  import opened Wrappers

  /** An uploaded (or synthesised) file. Its contents are opaque to the component. */
  datatype File = File(name: string, mediaType: string, content: string)

  /** The value `JSON.parse` produced from the reply's `chart` string: either
      `null` or a renderable figure (a `{data, layout}` object, kept opaque). */
  datatype Json = Null | Figure(spec: string)

  datatype State = State(
    file: Option<File>,
    sheets: seq<string>,
    selectedSheet: string,
    columns: seq<string>,
    chartType: string,
    xCol: string,
    yCol: string,
    chartTitle: string,
    color: string,
    format: string,
    chartData: Json,
    downloadLink: string,
    currentPage: string)

  const UploadPage := "upload"
  const OptionsPage := "options"
  const JsonFormat := "json"

  /** The state of a freshly mounted component: the `useState` initial values. */
  const Init := State(
    file := None,
    sheets := [],
    selectedSheet := "",
    columns := [],
    chartType := "bar",
    xCol := "",
    yCol := "",
    chartTitle := "Sales Chart",
    color := "#1f77b4",
    format := JsonFormat,
    chartData := Null,
    downloadLink := "",
    currentPage := UploadPage)

  /** The chart kinds whose form shows, and whose generation demands, a Y column. */
  const ChartTypesWithY: seq<string> := ["bar", "line", "scatter", "box", "area", "polar"]

  /** `Array.prototype.includes` on a list of strings. */
  function Includes(xs: seq<string>, x: string): (r: bool)
    ensures r <==> x in xs
  {
    if xs == [] then false else xs[0] == x || Includes(xs[1..], x)
  }

  predicate NeedsY(chartType: string) {
    Includes(ChartTypesWithY, chartType)
  }

  // ---------------------------------------------------------------------------
  // Field-level view

  datatype Field =
    | FileF | SheetsF | SelectedSheetF | ColumnsF
    | ChartTypeF | XColF | YColF | ChartTitleF | ColorF | FormatF
    | ChartDataF | DownloadLinkF | CurrentPageF

  datatype Value =
    | FileValue(file: Option<File>)
    | ListValue(list: seq<string>)
    | TextValue(text: string)
    | JsonValue(json: Json)

  function Get(s: State, f: Field): Value {
    match f
    case FileF => FileValue(s.file)
    case SheetsF => ListValue(s.sheets)
    case SelectedSheetF => TextValue(s.selectedSheet)
    case ColumnsF => ListValue(s.columns)
    case ChartTypeF => TextValue(s.chartType)
    case XColF => TextValue(s.xCol)
    case YColF => TextValue(s.yCol)
    case ChartTitleF => TextValue(s.chartTitle)
    case ColorF => TextValue(s.color)
    case FormatF => TextValue(s.format)
    case ChartDataF => JsonValue(s.chartData)
    case DownloadLinkF => TextValue(s.downloadLink)
    case CurrentPageF => TextValue(s.currentPage)
  }

  const AllFields: set<Field> := {
    FileF, SheetsF, SelectedSheetF, ColumnsF,
    ChartTypeF, XColF, YColF, ChartTitleF, ColorF, FormatF,
    ChartDataF, DownloadLinkF, CurrentPageF }

  /** The state derived, directly or through discovery, from the chosen file. */
  const FileDependents: set<Field> := {
    SheetsF, SelectedSheetF, ColumnsF, XColF, YColF, ChartDataF, DownloadLinkF }

  /** The state derived from the chosen sheet. */
  const SheetDependents: set<Field> := {
    ColumnsF, XColF, YColF, ChartDataF, DownloadLinkF }

  /** The two slots of the chart result. */
  const ResultFields: set<Field> := { ChartDataF, DownloadLinkF }

  /** Every field in `fs` is back at its initial value. */
  predicate Cleared(r: State, fs: set<Field>) {
    forall f {:trigger Get(r, f)} :: f in fs ==> Get(r, f) == Get(Init, f)
  }

  /** Every field in `fs` has the same value in `s` and `r`. */
  predicate Kept(s: State, r: State, fs: set<Field>) {
    forall f {:trigger Get(r, f)} :: f in fs ==> Get(r, f) == Get(s, f)
  }

  /** JavaScript truthiness of a field value: `null`, `""` are falsy; arrays,
      even empty ones, and objects are truthy. */
  predicate Falsy(v: Value) {
    match v
    case FileValue(f) => f.None?
    case ListValue(_) => false
    case TextValue(t) => t == ""
    case JsonValue(j) => j.Null?
  }
}
