/** The multipart requests the component posts to the charting service, the
    name it gives a downloaded chart, and the object URLs it links to. */
module Requests {
  import opened Wrappers
  import opened Session

  /** One `FormData.append(name, value)` call. Appending `null` where a file
      is expected stores the string "null". */
  datatype FormValue = FilePart(file: File) | TextPart(text: string)
  datatype Entry = Entry(name: string, value: FormValue)

  /** A POST to `url`; `blobResponse` is axios' `responseType: "blob"`. */
  datatype Request = Request(url: string, form: seq<Entry>, blobResponse: bool)

  const Backend := "https://graphify-backend.onrender.com"
  const UploadUrl := Backend + "/upload/"
  const ColumnsUrl := Backend + "/columns/"
  const GenerateUrl := Backend + "/generate/"

  const GenerateFieldNames: seq<string> :=
    ["file", "sheet_name", "chart_type", "x_col", "y_col", "chart_title", "color", "format"]

  function FileEntry(name: string, f: Option<File>): Entry {
    match f
    case Some(file) => Entry(name, FilePart(file))
    case None => Entry(name, TextPart("null"))
  }

  /** The field names of a form, in the order appended. */
  function Names(form: seq<Entry>): seq<string>
  {
    seq(|form|, i requires 0 <= i < |form| => form[i].name)
  }

  /** The value appended under `name`; every form the component builds uses each
      name once, so which of several repeated entries a server reads does not arise. */
  function Lookup(form: seq<Entry>, name: string): (r: Option<FormValue>)
  {
    if form == [] then None
    else if form[0].name == name then Some(form[0].value)
    else Lookup(form[1..], name)
  }

  /** In a form whose field names are pairwise distinct, every entry is found by its name. */
  lemma {:induction false} LookupDistinct(form: seq<Entry>, i: nat)
    requires i < |form|
    requires forall j :: 0 <= j < i ==> form[j].name != form[i].name
    ensures Lookup(form, form[i].name) == Some(form[i].value)
  {
    if i > 0 {
      assert form[0].name != form[i].name;
      LookupDistinct(form[1..], i - 1);
    }
  }

  // ---------------------------------------------------------------------------
  // Discovery requests

  function UploadRequest(file: File): (r: Request)
    ensures r.url == UploadUrl && !r.blobResponse
    ensures Names(r.form) == ["file"]
    ensures Lookup(r.form, "file") == Some(FilePart(file))
  {
    Request(UploadUrl, [Entry("file", FilePart(file))], false)
  }

  /** The column-discovery request; a missing file is sent as the text "null". */
  function ColumnsRequest(file: Option<File>, sheet: string): (r: Request)
    ensures r.url == ColumnsUrl && !r.blobResponse
    ensures Names(r.form) == ["file", "sheet_name"]
    ensures Lookup(r.form, "sheet_name") == Some(TextPart(sheet))
    ensures file.Some? ==> Lookup(r.form, "file") == Some(FilePart(file.value))
    ensures file.None? ==> Lookup(r.form, "file") == Some(TextPart("null"))
  {
    Request(ColumnsUrl, [FileEntry("file", file), Entry("sheet_name", TextPart(sheet))], false)
  }

  // ---------------------------------------------------------------------------
  // Chart-generation request and its server-side reading

  /** The parameters a generation request transmits. */
  datatype ChartParams = ChartParams(
    file: File, sheetName: string, chartType: string, xCol: string, yCol: string,
    chartTitle: string, color: string, format: string)

  function GenerateForm(p: ChartParams): (form: seq<Entry>)
    ensures Names(form) == GenerateFieldNames
  {
    [ Entry("file", FilePart(p.file)),
      Entry("sheet_name", TextPart(p.sheetName)),
      Entry("chart_type", TextPart(p.chartType)),
      Entry("x_col", TextPart(p.xCol)),
      Entry("y_col", TextPart(p.yCol)),
      Entry("chart_title", TextPart(p.chartTitle)),
      Entry("color", TextPart(p.color)),
      Entry("format", TextPart(p.format)) ]
  }

  function TextField(form: seq<Entry>, name: string): Option<string> {
    match Lookup(form, name)
    case Some(TextPart(t)) => Some(t)
    case _ => None
  }

  function FileField(form: seq<Entry>, name: string): Option<File> {
    match Lookup(form, name)
    case Some(FilePart(f)) => Some(f)
    case _ => None
  }

  /** How the `/generate/` endpoint reads its multipart body. */
  function ParseGenerateForm(form: seq<Entry>): Option<ChartParams> {
    var file, sheetName, chartType, xCol := FileField(form, "file"),
      TextField(form, "sheet_name"), TextField(form, "chart_type"), TextField(form, "x_col");
    var yCol, chartTitle, color, format := TextField(form, "y_col"),
      TextField(form, "chart_title"), TextField(form, "color"), TextField(form, "format");
    if file.Some? && sheetName.Some? && chartType.Some? && xCol.Some?
      && yCol.Some? && chartTitle.Some? && color.Some? && format.Some?
    then Some(ChartParams(file.value, sheetName.value, chartType.value, xCol.value,
                          yCol.value, chartTitle.value, color.value, format.value))
    else None
  }

  lemma GenerateFormFileFields(p: ChartParams)
    ensures FileField(GenerateForm(p), "file") == Some(p.file)
    ensures TextField(GenerateForm(p), "sheet_name") == Some(p.sheetName)
  {
    LookupDistinct(GenerateForm(p), 0);
    LookupDistinct(GenerateForm(p), 1);
  }

  lemma GenerateFormAxisFields(p: ChartParams)
    ensures TextField(GenerateForm(p), "chart_type") == Some(p.chartType)
    ensures TextField(GenerateForm(p), "x_col") == Some(p.xCol)
    ensures TextField(GenerateForm(p), "y_col") == Some(p.yCol)
  {
    LookupDistinct(GenerateForm(p), 2);
    LookupDistinct(GenerateForm(p), 3);
    LookupDistinct(GenerateForm(p), 4);
  }

  lemma GenerateFormStyleFields(p: ChartParams)
    ensures TextField(GenerateForm(p), "chart_title") == Some(p.chartTitle)
    ensures TextField(GenerateForm(p), "color") == Some(p.color)
    ensures TextField(GenerateForm(p), "format") == Some(p.format)
  {
    LookupDistinct(GenerateForm(p), 5);
    LookupDistinct(GenerateForm(p), 6);
    LookupDistinct(GenerateForm(p), 7);
  }

  /** Every parameter the client appends is read back unchanged by the server. */
  lemma GenerateFormRoundTrip(p: ChartParams)
    ensures ParseGenerateForm(GenerateForm(p)) == Some(p)
  {
    GenerateFormFileFields(p);
    GenerateFormAxisFields(p);
    GenerateFormStyleFields(p);
  }

  // ---------------------------------------------------------------------------
  // Result artefacts

  const DownloadPrefix := "chart."
  const BlobScheme := "blob:"

  /** The `download` attribute of the chart link: `chart.${format}`. */
  function DownloadName(format: string): string {
    DownloadPrefix + format
  }

  /** Recovers the format from a download name; the inverse of `DownloadName`. */
  function FormatOfDownloadName(name: string): (r: Option<string>)
    ensures r.Some? <==> |name| >= |DownloadPrefix| && name[..|DownloadPrefix|] == DownloadPrefix
    ensures r.Some? ==> DownloadName(r.value) == name
  {
    if |name| >= |DownloadPrefix| && name[..|DownloadPrefix|] == DownloadPrefix
    then Some(name[|DownloadPrefix|..])
    else None
  }

  lemma DownloadNameRoundTrip(format: string)
    ensures FormatOfDownloadName(DownloadName(format)) == Some(format)
  {
  }

  /** The object URL `URL.createObjectURL` mints for a blob; `id` stands for
      the browser-chosen part of the URL. */
  function ObjectUrl(id: string): (url: string)
    ensures IsObjectUrl(url) && url != ""
  {
    BlobScheme + id
  }

  predicate IsObjectUrl(url: string) {
    |url| >= |BlobScheme| && url[..|BlobScheme|] == BlobScheme
  }
}
