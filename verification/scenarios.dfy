/** Properties relating several handlers, and the end-to-end walks through
    the workflow that the component is built for. */
module Scenarios {
  import opened Wrappers
  import opened Session
  import opened Requests
  import opened Handlers
  import opened Workflow

  // ---------------------------------------------------------------------------
  // Invalidation

  /** After a new file is chosen no chart can be requested until a sheet and
      an X column are chosen again. */
  lemma FileChangeBlocksGenerate(s: State, files: seq<File>)
    requires |files| > 0
    ensures GenerateChart(FileChange(s, files).state).Rejected?
  {
  }

  /** After a sheet is chosen no chart can be requested until an X column is chosen again. */
  lemma SheetSelectBlocksGenerate(s: State, sheet: string)
    ensures GenerateChart(SheetSelect(s, sheet).state).Rejected?
  {
  }

  /** Choosing the same file twice ends where choosing it once does, and posts the same upload. */
  lemma FileChangeIdempotent(s: State, files: seq<File>)
    ensures FileChange(FileChange(s, files).state, files) == FileChange(s, files)
  {
  }

  /** Re-selecting the current sheet resets the same state and fetches the columns again. */
  lemma SheetReselectRefetches(s: State, sheet: string)
    ensures SheetSelect(SheetSelect(s, sheet).state, sheet) == SheetSelect(s, sheet)
    ensures SheetSelect(SheetSelect(s, sheet).state, sheet).request.Some?
  {
  }

  /** Sheet-derived state is also file-derived: a file change resets every
      field a sheet change resets, and beyond those exactly the sheet list and
      the selected sheet. */
  lemma SheetDependentsAreFileDependents(s: State, files: seq<File>)
    requires |files| > 0
    ensures Cleared(FileChange(s, files).state, SheetDependents)
    ensures FileDependents - SheetDependents == {SheetsF, SelectedSheetF}
    ensures Get(FileChange(s, files).state, SheetsF) == Get(Init, SheetsF)
    ensures Get(FileChange(s, files).state, SelectedSheetF) == Get(Init, SelectedSheetF)
  {
  }

  // ---------------------------------------------------------------------------
  // Validation

  /** A chart type outside the two-axis list never needs a Y column: with a
      file, a sheet and an X column the request is sent whatever Y holds. */
  lemma SingleAxisKindsIgnoreY(s: State)
    requires s.chartType in ["pie", "histogram", "treemap"]
    requires s.file.Some? && s.selectedSheet != "" && s.xCol != ""
    ensures GenerateChart(s).Send?
  {
  }

  /** A two-axis chart type with no Y column is refused. */
  lemma TwoAxisKindsNeedY(s: State)
    requires s.chartType in ChartTypesWithY
    requires s.yCol == ""
    ensures GenerateChart(s).Rejected?
  {
  }

  /** A Y column chosen under a two-axis type is still sent after switching to
      a single-axis type: the value is not cleared, only ignored by the guard. */
  lemma StaleYColumnIsSent(s: State)
    requires s.chartType == "pie"
    requires s.file.Some? && s.selectedSheet != "" && s.xCol != "" && s.yCol != ""
    ensures GenerateChart(s).Send?
    ensures TextField(GenerateChart(s).request.form, "y_col") == Some(s.yCol)
  {
  }

  // ---------------------------------------------------------------------------
  // Untagged replies

  /** A sheet list that answers an earlier upload is applied after a later
      file was chosen: the sheets shown then belong to the first file. */
  lemma LateSheetsReplyIsApplied(s: State, a: File, b: File, sheetsOfA: seq<string>)
    ensures var r := Run(s, [FilesChosen([a]), FilesChosen([b]), SheetsReplied(Ok(sheetsOfA))]);
      r.file == Some(b) && r.sheets == sheetsOfA
  {
    var s1 := Step(s, FilesChosen([a])).state;
    var s2 := Step(s1, FilesChosen([b])).state;
    var s3 := Step(s2, SheetsReplied(Ok(sheetsOfA))).state;
    assert Run(s, [FilesChosen([a]), FilesChosen([b]), SheetsReplied(Ok(sheetsOfA))]) == s3 by {
      RunAppend(s, [FilesChosen([a]), FilesChosen([b])], SheetsReplied(Ok(sheetsOfA)));
      RunAppend(s, [FilesChosen([a])], FilesChosen([b]));
      RunAppend(s, [], FilesChosen([a]));
      assert [FilesChosen([a])] + [FilesChosen([b])] == [FilesChosen([a]), FilesChosen([b])];
      assert [] + [FilesChosen([a])] == [FilesChosen([a])];
      assert [FilesChosen([a]), FilesChosen([b])] + [SheetsReplied(Ok(sheetsOfA))]
          == [FilesChosen([a]), FilesChosen([b]), SheetsReplied(Ok(sheetsOfA))];
    }
  }

  /** A column list that answers an earlier sheet selection is applied after
      a later selection: the columns offered then belong to the first sheet. */
  lemma LateColumnsReplyIsApplied(s: State, first: string, second: string, columnsOfFirst: seq<string>)
    ensures var r := ColumnsReply(SheetSelect(SheetSelect(s, first).state, second).state, Ok(columnsOfFirst));
      r.selectedSheet == second && r.columns == columnsOfFirst
  {
  }

  // ---------------------------------------------------------------------------
  // Presentation

  /** The download name follows the format selected now, not the one the
      link was generated with. */
  lemma DownloadNameFollowsCurrentFormat(s: State, id: string, newFormat: string)
    requires s.format == "png"
    ensures var r := Configure(GenerateReply(s, s.format, true, Payload(Null, id)), FormatControl, newFormat);
      DownloadAnchor(r) == Some(Anchor(ObjectUrl(id), DownloadName(newFormat)))
  {
  }

  /** A successful preview reply is shown as a chart and no download is offered. */
  lemma PreviewReplyShowsChartOnly(s: State, figure: string, id: string)
    ensures var r := GenerateReply(s, JsonFormat, true, Payload(Figure(figure), id));
      PlotShown(r) && DownloadAnchor(r).None?
  {
  }

  /** A successful reply in any other format is offered as `chart.<format>`
      (the format still being selected) and no chart is shown. */
  lemma ImageReplyOffersDownloadOnly(s: State, id: string, chart: Json)
    requires s.format != JsonFormat
    ensures var r := GenerateReply(s, s.format, true, Payload(chart, id));
      !PlotShown(r) && DownloadAnchor(r) == Some(Anchor(ObjectUrl(id), DownloadName(s.format)))
  {
  }

  /** A failed generation leaves whatever was shown before in place. */
  lemma FailedReplyKeepsPresentation(s: State, format: string, payload: Payload)
    ensures var r := GenerateReply(s, format, false, payload);
      PlotShown(r) == PlotShown(s) && DownloadAnchor(r) == DownloadAnchor(s)
  {
  }

  // ---------------------------------------------------------------------------
  // End-to-end walks

  /** Upload of `file`, a successful sheet discovery, the choice of `sheet`
      and a successful column discovery, from any state. */
  function Discover(s: State, file: File, sheets: seq<string>, sheet: string, columns: seq<string>): (r: State)
    ensures r.file == Some(file) && r.sheets == sheets && r.selectedSheet == sheet && r.columns == columns
    ensures r.currentPage == OptionsPage
    ensures Cleared(r, {XColF, YColF, ChartDataF, DownloadLinkF})
    ensures Kept(s, r, {ChartTypeF, ChartTitleF, ColorF, FormatF})
  {
    var s1 := FileChange(s, [file]).state;
    var s2 := SheetsReply(s1, Ok(sheets));
    var s3 := SheetSelect(s2, sheet).state;
    ColumnsReply(s3, Ok(columns))
  }

  /** The four configuration controls a walk uses, applied in turn. */
  function ConfigureChart(s: State, chartType: string, x: string, y: string, format: string): (r: State)
    ensures r.chartType == chartType && r.xCol == x && r.yCol == y && r.format == format
    ensures Kept(s, r, AllFields - {ChartTypeF, XColF, YColF, FormatF})
  {
    var s1 := Configure(s, ChartTypeControl, chartType);
    var s2 := Configure(s1, XColControl, x);
    var s3 := Configure(s2, YColControl, y);
    Configure(s3, FormatControl, format)
  }

  /** Configuring the chart changes only the four configured parameters of
      the request; the file, sheet, title and colour are carried over. */
  lemma ConfigureChartParams(d: State, chartType: string, x: string, y: string, format: string)
    requires d.file.Some?
    ensures var r := ConfigureChart(d, chartType, x, y, format);
      r.file == d.file
      && ParamsOf(r) == ChartParams(d.file.value, d.selectedSheet, chartType, x, y, d.chartTitle, d.color, format)
  {
  }

  /** The whole workflow: after discovery and configuration with a sheet, an
      X column and (for two-axis kinds) a Y column, Generate posts exactly the
      user's choices, asking for raw bytes exactly when the format is not
      "json"; a pie, histogram or treemap chart needs no Y column. */
  lemma GenerateAfterDiscoveryWalk(
    s: State, file: File, sheets: seq<string>, sheet: string, columns: seq<string>,
    chartType: string, x: string, y: string, format: string)
    requires sheet != "" && x != ""
    requires chartType in ChartTypesWithY ==> y != ""
    ensures var r := ConfigureChart(Discover(s, file, sheets, sheet, columns), chartType, x, y, format);
      && GenerateChart(r).Send?
      && GenerateChart(r).request.blobResponse == (format != JsonFormat)
      && ParseGenerateForm(GenerateChart(r).request.form)
         == Some(ChartParams(file, sheet, chartType, x, y, s.chartTitle, s.color, format))
  {
    var d := Discover(s, file, sheets, sheet, columns);
    assert Get(d, ChartTitleF) == Get(s, ChartTitleF) && Get(d, ColorF) == Get(s, ColorF);
    ConfigureChartParams(d, chartType, x, y, format);
    var r := ConfigureChart(d, chartType, x, y, format);
    GuardFailsIffMissingRequired(r);
  }

  /** A failed sheet discovery shows no sheets and leaves the page where it
      was (the upload page, for a first file); another file can then be
      chosen and uploaded. */
  lemma FailedDiscoveryWalk(s: State, file: File, other: File)
    ensures var r := SheetsReply(FileChange(s, [file]).state, Failed);
      && r.sheets == [] && r.currentPage == s.currentPage
      && FileChange(r, [other]).state.file == Some(other)
      && FileChange(r, [other]).request == Some(UploadRequest(other))
  {
  }
}
