/** The component as a whole: every user action and every network reply is an
    event, and a session is the fold of the handlers over a sequence of
    events. Replies are not tagged with the request they answer, so a
    sequence may deliver them in any order, including after later actions. */
module Workflow {
  import opened Wrappers
  import opened Session
  import opened Requests
  import opened Handlers

  datatype Event =
    | FilesChosen(files: seq<File>)
    | SampleRequested
    | SheetsReplied(sheetsReply: Reply<seq<string>>)
    | SheetChosen(sheet: string)
    | ColumnsReplied(columnsReply: Reply<seq<string>>)
    | Edited(control: Control, value: string)
    | GenerateClicked
    | ChartReplied(format: string, ok: bool, payload: Payload)

  function Step(s: State, e: Event): Outcome {
    match e
    case FilesChosen(files) => FileChange(s, files)
    case SampleRequested => SampleDataLoad(s)
    case SheetsReplied(reply) => Outcome(SheetsReply(s, reply), None)
    case SheetChosen(sheet) => SheetSelect(s, sheet)
    case ColumnsReplied(reply) => Outcome(ColumnsReply(s, reply), None)
    case Edited(c, value) => Outcome(Configure(s, c, value), None)
    case GenerateClicked =>
      (match GenerateChart(s)
       case Rejected => Outcome(s, None)
       case Send(request) => Outcome(s, Some(request)))
    case ChartReplied(format, ok, payload) => Outcome(GenerateReply(s, format, ok, payload), None)
  }

  function Run(s: State, events: seq<Event>): State
    decreases |events|
  {
    if events == [] then s else Run(Step(s, events[0]).state, events[1..])
  }

  lemma {:induction false} RunAppend(s: State, events: seq<Event>, e: Event)
    ensures Run(s, events + [e]) == Step(Run(s, events), e).state
    decreases |events|
  {
    if events != [] {
      assert (events + [e])[1..] == events[1..] + [e];
      RunAppend(Step(s, events[0]).state, events[1..], e);
    }
  }

  // ---------------------------------------------------------------------------
  // Session invariant

  /** What holds of every state a session can reach: at most one result slot
      is filled, a download link is an object URL, the page is one of the two
      pages, and sheets are only listed once the options page is shown. */
  predicate Invariant(s: State) {
    && ResultExclusive(s)
    && (s.downloadLink == "" || IsObjectUrl(s.downloadLink))
    && (s.currentPage == UploadPage || s.currentPage == OptionsPage)
    && (s.sheets != [] ==> s.currentPage == OptionsPage)
  }

  lemma InitInvariant()
    ensures Invariant(Init)
  {
  }

  lemma StepInvariant(s: State, e: Event)
    requires Invariant(s)
    ensures Invariant(Step(s, e).state)
  {
  }

  lemma {:induction false} RunInvariant(s: State, events: seq<Event>)
    requires Invariant(s)
    ensures Invariant(Run(s, events))
    decreases |events|
  {
    if events != [] {
      StepInvariant(s, events[0]);
      RunInvariant(Step(s, events[0]).state, events[1..]);
    }
  }

  /** Whatever the users do and however the replies interleave, the chart and
      the download link are never shown together. */
  lemma ReachableResultExclusive(events: seq<Event>)
    ensures ResultExclusive(Run(Init, events))
    ensures !(PlotShown(Run(Init, events)) && DownloadAnchor(Run(Init, events)).Some?)
  {
    InitInvariant();
    RunInvariant(Init, events);
  }

  // ---------------------------------------------------------------------------
  // Monotone facts

  /** Once a file has been chosen the session always has one: no event clears it. */
  lemma {:induction false} FileSticky(s: State, events: seq<Event>)
    requires s.file.Some?
    ensures Run(s, events).file.Some?
    decreases |events|
  {
    if events != [] {
      var r := Step(s, events[0]).state;
      assert Get(r, FileF) != FileValue(None);
      FileSticky(r, events[1..]);
    }
  }

  /** Once the options page is shown the session never returns to the upload page. */
  lemma {:induction false} OptionsPageSticky(s: State, events: seq<Event>)
    requires s.currentPage == OptionsPage
    ensures Run(s, events).currentPage == OptionsPage
    decreases |events|
  {
    if events != [] {
      var r := Step(s, events[0]).state;
      assert Get(r, CurrentPageF) == TextValue(OptionsPage);
      OptionsPageSticky(r, events[1..]);
    }
  }
}
