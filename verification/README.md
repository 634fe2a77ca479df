# Graphify session controller in Dafny

This project models the session controller of Graphify's single-page front end.
The controller is the `App` component. A user uploads a spreadsheet or CSV file,
or loads the built-in sample. The charting service lists the file's sheets, and
the user picks one. The service then lists that sheet's columns. The user picks
a chart type, the X and Y columns, a title, a colour and an export format. On
"Generate", the component posts everything to the service. A `json` reply is
drawn as a chart. Any other format comes back as bytes and is offered as a
download named `chart.<format>`.

The component's `useState` hooks become one immutable `State` record
(`session.dfy`). Each event handler becomes a pure function from a state to a
new state (`handlers.dfy`). A handler that posts to the service also returns
the request it would send, as data (`requests.dfy`). A network reply is not a
call. It is a separate transition whose argument is the reply: `Failed` when
the promise rejects, `Ok(value)` when it resolves.

The contracts are stated against three independent views:

- **Field view** (`Session.Get`, `Cleared`, `Kept`). Each handler's contract
  lists the fields it resets to their initial values (`FileDependents`,
  `SheetDependents`). It also states that every other field is kept.
- **Truthiness view** (`Falsy`, `RequiredFields`). Generation is refused exactly
  when a field required by the chart type is falsy in JavaScript's sense.
- **Reading view** (`ParseGenerateForm`, `FormatOfDownloadName`). These read
  back what the component emits: the multipart form as the server reads it by
  field name, and the format encoded in the download name.

`Session.Init` holds the `useState` initial values (src/App.js:7-19).
`Handlers.PlotShown` and `Handlers.DownloadAnchor` model what is rendered from
the result (src/App.js:360, 375-382); the anchor's file name is
`Requests.DownloadName`, the `chart.${format}` template (src/App.js:378).

`workflow.dfy` folds the handlers over an arbitrary sequence of events with
`Workflow.Step`, one transition per event, and `Workflow.Run`. Replies
may arrive in any order, because the component does not tag them. Its lemmas
prove an invariant of every reachable state: the chart and the download link
are never shown together, a link is always an object URL, and sheets are only
listed on the options page. `scenarios.dfy` holds properties that relate
several handlers, and end-to-end walks through the workflow.

## Behaviour worth knowing

- Replies carry no request tag. A late sheet list or column list overwrites
  the state chosen since (`Scenarios.LateSheetsReplyIsApplied`,
  `Scenarios.LateColumnsReplyIsApplied`). No staleness guarantee is stated.
- Selecting a sheet is not checked against the sheet list. The empty
  "-- Choose Sheet --" option also resets the state and posts a column request
  with an empty `sheet_name`.
- The Y column is not cleared for pie, histogram or treemap charts. A value
  chosen earlier is still sent as `y_col` (`Scenarios.StaleYColumnIsSent`).
  `yCol || ""` equals `yCol` for strings, so `y_col` is always the stored Y column.
- Re-selecting the current sheet refetches its columns as a property of the
  handler (`Scenarios.SheetReselectRefetches`). The controlled sheet dropdown
  fires no change event for the option already selected, so it cannot trigger it.
- Editing the configuration does not clear a displayed chart or link.
- The download name uses the format selected now, not the one the link was
  generated with (`Scenarios.DownloadNameFollowsCurrentFormat`).
- There is no reset operation and no object-URL revocation. "Home" reloads the
  page, which remounts the component and starts a new session at `Session.Init`.

## Model

| member | source | states |
|---|---|---|
| Session.Includes | src/App.js:22 | `chartTypesWithY.includes(t)` holds exactly when `t` is one of the six two-axis kinds |
| Handlers.FileChange | src/App.js:31-54 | no file: state and requests unchanged; otherwise the first file is stored, sheets, selected sheet, columns, X, Y, chart data and link return to their initial values, every other field (chart type, title, colour, format, page) is kept, and the upload request carries that file |
| Handlers.SampleDataLoad | src/App.js:110-131 | loading the sample is a file change with `sample.csv` (text/csv): same resets, same kept fields, same upload request |
| Handlers.SheetsReply | src/App.js:49-53 | a failed discovery changes nothing (sheets stay as the file change left them); a successful one sets exactly the sheets to the reply and the page to "options" |
| Handlers.SheetSelect | src/App.js:56-69 | the sheet is stored; columns, X, Y, chart data and link are reset; file, sheets and configuration are kept; a column request for (file, sheet) is always issued |
| Handlers.ColumnsReply | src/App.js:70-71 | failure changes nothing; success sets exactly the columns |
| Handlers.Configure | src/App.js:293-339 | a configuration control writes its own field and keeps every other one, including a displayed chart or link |
| Handlers.GuardFailsIffMissingRequired | src/App.js:75-77 | the handler's four-way guard fails exactly when some required field is falsy: file, sheet and X always, Y only for the two-axis kinds |
| Handlers.GenerateChart | src/App.js:74-98 | refused exactly when a required field is falsy; otherwise posts to `/generate/` the fields file, sheet_name, chart_type, x_col, y_col, chart_title, color, format in that order, which the server reads back as the current configuration, and asks for raw bytes exactly when the format is not "json" |
| Handlers.GenerateReply | src/App.js:90-107 | failure changes nothing; success changes only chart data and link, leaves at most one of them set, gives the parsed chart and an empty link for "json", and an object URL with no chart for any other format |
| Handlers.DownloadAnchor | src/App.js:375-382 | a download anchor is rendered exactly when the link is truthy, points at the link, and its file name encodes the currently selected format |
| Requests.UploadRequest | src/App.js:44-48 | the upload request posts one field, `file`, to `/upload/` |
| Requests.ColumnsRequest | src/App.js:64-69 | the column request posts `file` then `sheet_name` to `/columns/`; a missing file is appended as the text "null" |
| Requests.GenerateForm | src/App.js:80-88 | the generation form's field names are exactly the eight names in the order appended |
| Requests.LookupDistinct | src/App.js:80-88 | in a form with distinct names, a field is read back by its name as the value appended |
| Requests.GenerateFormRoundTrip | src/App.js:80-88 | reading the generation form by field name gives back every parameter appended |
| Requests.FormatOfDownloadName | src/App.js:378 | a name is recognised exactly when it starts with `chart.`, and then the recovered format rebuilds the name |
| Requests.DownloadNameRoundTrip | src/App.js:378 | the format is recovered from `chart.${format}` |
| Requests.ObjectUrl | src/App.js:99-101 | the link for a blob reply is a non-empty `blob:` URL |
| Workflow.InitInvariant | src/App.js:7-19 | the initial state satisfies the session invariant |
| Workflow.StepInvariant | src/App.js:31-107 | every handler and reply preserves the session invariant |
| Workflow.RunInvariant | src/App.js:31-107 | any sequence of events preserves the session invariant |
| Workflow.ReachableResultExclusive | src/App.js:360-382 | in every reachable state, the chart and the download link are never both rendered |
| Workflow.FileSticky | src/App.js:31-35 | within one page load, once a file is chosen no event leaves the session without one |
| Workflow.OptionsPageSticky | src/App.js:49-52 | within one page load, once the options page is shown no event returns to the upload page |
| Scenarios.FileChangeBlocksGenerate | src/App.js:35-42 | right after a new file, generation is refused |
| Scenarios.SheetSelectBlocksGenerate | src/App.js:57-62 | right after a sheet choice, generation is refused |
| Scenarios.FileChangeIdempotent | src/App.js:31-48 | choosing the same file again reaches the same state and posts the same upload |
| Scenarios.SheetReselectRefetches | src/App.js:56-69 | re-selecting the same sheet reaches the same state and still requests the columns |
| Scenarios.SheetDependentsAreFileDependents | src/App.js:36-42 | a file change resets every field a sheet change resets, and beyond those exactly the sheet list and the selected sheet |
| Scenarios.SingleAxisKindsIgnoreY | src/App.js:22 | pie, histogram and treemap charts are sent with file, sheet and X set, whatever the Y column holds |
| Scenarios.TwoAxisKindsNeedY | src/App.js:75-77 | a two-axis chart type with an empty Y column is refused |
| Scenarios.StaleYColumnIsSent | src/App.js:85 | a Y column left over from a two-axis type is still sent for a pie chart |
| Scenarios.LateSheetsReplyIsApplied | src/App.js:47-53 | a sheet list answering an earlier upload overwrites the sheets after a later file change |
| Scenarios.LateColumnsReplyIsApplied | src/App.js:68-71 | a column list answering an earlier selection overwrites the columns after a later selection |
| Scenarios.DownloadNameFollowsCurrentFormat | src/App.js:378 | after a PNG reply, changing the format renames the offered download to the new format |
| Scenarios.PreviewReplyShowsChartOnly | src/App.js:91-94 | a successful preview reply renders the chart and no download link |
| Scenarios.ImageReplyOffersDownloadOnly | src/App.js:95-103 | a successful non-json reply offers `chart.<format>` at the object URL and renders no chart |
| Scenarios.FailedReplyKeepsPresentation | src/App.js:104-107 | a failed generation leaves the rendered chart or link as it was |
| Scenarios.Discover | src/App.js:31-71 | uploading a file, a successful sheet discovery, choosing a sheet and a successful column discovery, from any state, show that file, sheets, sheet and columns on the options page, with X, Y and the result reset and the chart type, title, colour and format kept |
| Scenarios.ConfigureChart | src/App.js:293-339 | setting chart type, X, Y and format through their controls changes only those four fields |
| Scenarios.ConfigureChartParams | src/App.js:80-88 | configuring the chart changes only the chart type, X, Y and format of the request that Generate would send |
| Scenarios.GenerateAfterDiscoveryWalk | src/App.js:31-98 | from any state, discovery then configuration with a sheet, an X column and a Y column where the chart type requires one leads Generate to post exactly those choices, with the kept title and colour; it asks for raw bytes exactly when the format is not "json", and pie, histogram and treemap charts need no Y column |
| Scenarios.FailedDiscoveryWalk | src/App.js:47-53 | after a failed discovery, no sheets are shown, the page stays where it was, and another file can be chosen and uploaded |

## Left out

- HTTP transport (axios), `FormData`, `Blob`, `URL.createObjectURL` and `JSON.parse` are foreign calls. A reply is an abstract `Reply` value. A generation reply is `ok` plus a `Payload`: the parsed `chart` value read by the json branch, and the object-URL identifier read by the blob branch. A `JSON.parse` failure is the same as a failed reply. The parsed chart is narrowed to `Null` or a figure: the falsy non-null values `JSON.parse` can return (`false`, `0`, `""`) are not modelled; with one of those `chartData` would be set but no chart drawn.
- Asynchronous interleaving is modelled only as the order of events. The model does not track which request is outstanding. Any sequence of events is allowed, which is a superset of what the UI permits.
- Rendering and UI gating are left out: the JSX layout, styling, Plotly widget, navbar and footer, and the fact that the file input is rendered only on the upload page. The presentation is modelled only as which of the chart and the download link is rendered, and the link's `href` and `download` name.
- The drag-and-drop plumbing (src/App.js:24-29) is left out. It calls the file-change handler only with a non-empty file list, which `FileChange` already covers.
- `window.location.reload` (the Home button, src/App.js:160) is not an event of the model. A reload remounts the component and starts a new session at `Session.Init`, so `Workflow.FileSticky` and `Workflow.OptionsPageSticky` hold within one page load only.
- `alert` and `console.error` are left out. They are side effects with no state of their own.
- The server's response contents (sheet and column lists, chart figures) are opaque values.
