/** The event handlers of the `App` component, as pure transitions over the
    session state. A handler that posts a request returns it alongside the
    new state; the reply arrives later as a separate transition. */
module Handlers {
  import opened Wrappers
  import opened Session
  import opened Requests

  datatype Outcome = Outcome(state: State, request: Option<Request>)

  // ---------------------------------------------------------------------------
  // File intake and sheet discovery

  /** `handleFileChange`: the first chosen file replaces the current one and
      everything derived from it is reset; no file means nothing happens. */
  function FileChange(s: State, files: seq<File>): (r: Outcome)
    ensures |files| == 0 ==> r == Outcome(s, None)
    ensures |files| > 0 ==>
      && r.state.file == Some(files[0])
      && Cleared(r.state, FileDependents)
      && Kept(s, r.state, AllFields - FileDependents - {FileF})
      && r.request == Some(UploadRequest(files[0]))
  {
    if |files| == 0 then Outcome(s, None)
    else
      var file := files[0];
      Outcome(
        s.(file := Some(file), sheets := [], selectedSheet := "", columns := [],
           xCol := "", yCol := "", chartData := Null, downloadLink := ""),
        Some(UploadRequest(file)))
  }

  /** The built-in sample: a CSV of fifteen categories with sales, profit and region. */
  const SampleCsv: string :=
    "Category,Sales,Profit,Region\n"
    + "A,100,20,North\nB,120,25,South\nC,150,30,East\nD,130,35,West\n"
    + "E,170,50,North\nF,160,40,South\nG,180,45,East\nH,190,55,West\n"
    + "I,200,60,North\nJ,210,65,South\nK,220,70,East\nL,230,75,West\n"
    + "M,240,80,North\nN,250,85,South\nO,260,90,East"

  const SampleFile := File("sample.csv", "text/csv", SampleCsv)

  /** `handleSampleDataLoad`: a file change with the synthesised sample file. */
  function SampleDataLoad(s: State): (r: Outcome)
    ensures r.state.file == Some(SampleFile)
    ensures Cleared(r.state, FileDependents)
    ensures Kept(s, r.state, AllFields - FileDependents - {FileF})
    ensures r.request == Some(UploadRequest(SampleFile))
  {
    FileChange(s, [SampleFile])
  }

  /** The sheet-discovery reply: on success the sheets are shown on the options
      page; on failure (an alert) nothing changes. */
  function SheetsReply(s: State, reply: Reply<seq<string>>): (r: State)
    ensures reply.Failed? ==> r == s
    ensures reply.Ok? ==>
      && r.sheets == reply.value
      && r.currentPage == OptionsPage
      && Kept(s, r, AllFields - {SheetsF, CurrentPageF})
  {
    match reply
    case Failed => s
    case Ok(sheets) => s.(sheets := sheets, currentPage := OptionsPage)
  }

  // ---------------------------------------------------------------------------
  // Sheet selection and column discovery

  /** `handleSheetSelect`: the sheet is stored, everything derived from the
      previous sheet is reset, and columns are requested, even when the same
      sheet is chosen again. */
  function SheetSelect(s: State, sheet: string): (r: Outcome)
    ensures r.state.selectedSheet == sheet
    ensures Cleared(r.state, SheetDependents)
    ensures Kept(s, r.state, AllFields - SheetDependents - {SelectedSheetF})
    ensures r.request == Some(ColumnsRequest(s.file, sheet))
  {
    Outcome(
      s.(selectedSheet := sheet, columns := [], xCol := "", yCol := "",
         chartData := Null, downloadLink := ""),
      Some(ColumnsRequest(s.file, sheet)))
  }

  /** The column-discovery reply: on success the columns are offered; on failure nothing changes. */
  function ColumnsReply(s: State, reply: Reply<seq<string>>): (r: State)
    ensures reply.Failed? ==> r == s
    ensures reply.Ok? ==> r.columns == reply.value && Kept(s, r, AllFields - {ColumnsF})
  {
    match reply
    case Failed => s
    case Ok(columns) => s.(columns := columns)
  }

  // ---------------------------------------------------------------------------
  // Chart configuration

  /** The controls that write one configuration field directly. */
  datatype Control = ChartTypeControl | XColControl | YColControl | TitleControl | ColorControl | FormatControl

  function ControlField(c: Control): Field {
    match c
    case ChartTypeControl => ChartTypeF
    case XColControl => XColF
    case YColControl => YColF
    case TitleControl => ChartTitleF
    case ColorControl => ColorF
    case FormatControl => FormatF
  }

  /** A configuration control's `onChange`: it writes its own field and
      nothing else; in particular a displayed chart or link stays. */
  function Configure(s: State, c: Control, value: string): (r: State)
    ensures Get(r, ControlField(c)) == TextValue(value)
    ensures Kept(s, r, AllFields - {ControlField(c)})
  {
    match c
    case ChartTypeControl => s.(chartType := value)
    case XColControl => s.(xCol := value)
    case YColControl => s.(yCol := value)
    case TitleControl => s.(chartTitle := value)
    case ColorControl => s.(color := value)
    case FormatControl => s.(format := value)
  }

  // ---------------------------------------------------------------------------
  // Chart generation

  /** The fields that must be truthy before a chart may be requested. */
  function RequiredFields(chartType: string): set<Field> {
    {FileF, SelectedSheetF, XColF} + (if NeedsY(chartType) then {YColF} else {})
  }

  /** Some field the chart type requires is falsy. */
  predicate MissingRequired(s: State) {
    exists f :: f in RequiredFields(s.chartType) && Falsy(Get(s, f))
  }

  /** The handler's guard, written as the four falsiness tests it performs. */
  predicate GuardFails(s: State) {
    s.file.None? || s.selectedSheet == "" || s.xCol == ""
    || (Includes(ChartTypesWithY, s.chartType) && s.yCol == "")
  }

  lemma GuardFailsIffMissingRequired(s: State)
    ensures GuardFails(s) <==> MissingRequired(s)
  {
    if GuardFails(s) {
      var f := if s.file.None? then FileF
               else if s.selectedSheet == "" then SelectedSheetF
               else if s.xCol == "" then XColF
               else YColF;
      assert f in RequiredFields(s.chartType) && Falsy(Get(s, f));
    } else {
      forall f | f in RequiredFields(s.chartType)
        ensures !Falsy(Get(s, f))
      {
        assert f == FileF || f == SelectedSheetF || f == XColF || (f == YColF && NeedsY(s.chartType));
      }
    }
  }

  datatype GenerateOutcome = Rejected | Send(request: Request)

  /** The parameters of the current configuration, as sent to the service. */
  function ParamsOf(s: State): ChartParams
    requires s.file.Some?
  {
    ChartParams(s.file.value, s.selectedSheet, s.chartType, s.xCol, s.yCol,
                s.chartTitle, s.color, s.format)
  }

  /** `handleGenerateChart` up to the request: it is refused (an alert, no
      request) exactly when a required field is falsy; otherwise it posts the
      whole configuration, asking for raw bytes unless the format is "json".
      It never changes the state. */
  function GenerateChart(s: State): (r: GenerateOutcome)
    ensures r.Rejected? <==> MissingRequired(s)
    ensures r.Send? ==>
      && s.file.Some?
      && r.request.url == GenerateUrl
      && r.request.blobResponse == (s.format != JsonFormat)
      && Names(r.request.form) == GenerateFieldNames
      && ParseGenerateForm(r.request.form) == Some(ParamsOf(s))
  {
    GuardFailsIffMissingRequired(s);
    if GuardFails(s) then
      Rejected
    else
      var p := ParamsOf(s);
      GenerateFormRoundTrip(p);
      Send(Request(GenerateUrl, GenerateForm(p), s.format != JsonFormat))
  }

  /** The reply to a generation request, as each branch of the handler reads
      it: `chart` is what `JSON.parse` made of the reply's `chart` string, and
      `objectId` names the object URL minted for the reply's bytes. */
  datatype Payload = Payload(chart: Json, objectId: string)

  /** At most one of the two result slots is filled. */
  predicate ResultExclusive(s: State) {
    !(s.chartData.Figure? && s.downloadLink != "")
  }

  /** The continuation of `handleGenerateChart`, with `format` the format at
      the time of the click: a "json" reply is shown as a chart and clears the
      link; any other reply becomes a download link and clears the chart; a
      failure (an alert) changes nothing. */
  function GenerateReply(s: State, format: string, ok: bool, payload: Payload): (r: State)
    ensures !ok ==> r == s
    ensures ok ==> Kept(s, r, AllFields - ResultFields) && ResultExclusive(r)
    ensures ok && format == JsonFormat ==> r.chartData == payload.chart && r.downloadLink == ""
    ensures ok && format != JsonFormat ==>
      r.chartData == Null && IsObjectUrl(r.downloadLink) && r.downloadLink == ObjectUrl(payload.objectId)
  {
    if !ok then s
    else if format == JsonFormat then s.(chartData := payload.chart, downloadLink := "")
    else s.(downloadLink := ObjectUrl(payload.objectId), chartData := Null)
  }

  // ---------------------------------------------------------------------------
  // Result presentation

  datatype Anchor = Anchor(href: string, fileName: string)

  /** Whether the chart widget is rendered: when `chartData` is truthy. */
  predicate PlotShown(s: State) {
    !Falsy(Get(s, ChartDataF))
  }

  /** The download link rendered when `downloadLink` is truthy, named after the
      format currently selected. */
  function DownloadAnchor(s: State): (r: Option<Anchor>)
    ensures r.Some? <==> !Falsy(Get(s, DownloadLinkF))
    ensures r.Some? ==> r.value.href == s.downloadLink
    ensures r.Some? ==> FormatOfDownloadName(r.value.fileName) == Some(s.format)
  {
    if s.downloadLink == "" then None
    else
      DownloadNameRoundTrip(s.format);
      Some(Anchor(s.downloadLink, DownloadName(s.format)))
  }
}
