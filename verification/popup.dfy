/**
 * The popup's decisions once the DOM writes are stripped: the rating band
 * formatMetric gives a value, the position of the speed marker, and what
 * the popup does with the background script's replies to `startAnalysis` and
 * `getResults`. The formatted text (`toFixed`) is not modelled; a rating is
 * the CSS class the popup would set.
 */
module Popup {
  import opened Wrappers
  import opened Collectors
  import opened Advice
  import opened ContentScript
  import opened Background

  datatype MetricKind = LcpKind | InpKind | ClsKind | SpeedKind | OtherKind

  /** The CSS class: 'good', 'moderate', 'poor', or '' for an unknown kind. */
  datatype Band = Good | Moderate | Poor | Unrated

  /** `'--'` for a missing value, otherwise a value with its class. */
  datatype Formatted = Dash | Shown(band: Band)

  /** formatMetric. INP values are in milliseconds. LCP, INP and CLS are
      good below their first threshold and poor from their second one on; the
      speed score is good above 80 and poor from 50 down. */
  function FormatMetric(value: Option<real>, kind: MetricKind): (f: Formatted)
    ensures f == Dash <==> value.None?
    ensures f.Shown? ==> (f.band == Unrated <==> kind == OtherKind)
    ensures value.Some? && kind == LcpKind ==>
      (f == Shown(Good) <==> value.value < 2.5) && (f == Shown(Poor) <==> value.value >= 4.0) &&
      (f == Shown(Moderate) <==> 2.5 <= value.value < 4.0)
    ensures value.Some? && kind == InpKind ==>
      (f == Shown(Good) <==> value.value < 200.0) && (f == Shown(Poor) <==> value.value >= 500.0) &&
      (f == Shown(Moderate) <==> 200.0 <= value.value < 500.0)
    ensures value.Some? && kind == ClsKind ==>
      (f == Shown(Good) <==> value.value < 0.1) && (f == Shown(Poor) <==> value.value >= 0.25) &&
      (f == Shown(Moderate) <==> 0.1 <= value.value < 0.25)
    ensures value.Some? && kind == SpeedKind ==>
      (f == Shown(Good) <==> value.value > 80.0) && (f == Shown(Poor) <==> value.value <= 50.0) &&
      (f == Shown(Moderate) <==> 50.0 < value.value <= 80.0)
  {
    match value
    case None => Dash
    case Some(v) =>
      match kind
      case LcpKind => Shown(if v < 2.5 then Good else if v < 4.0 then Moderate else Poor)
      case InpKind => Shown(if v < 200.0 then Good else if v < 500.0 then Moderate else Poor)
      case ClsKind => Shown(if v < 0.1 then Good else if v < 0.25 then Moderate else Poor)
      case SpeedKind => Shown(if v > 80.0 then Good else if v > 50.0 then Moderate else Poor)
      case OtherKind => Shown(Unrated)
  }

  function Severity(b: Band): nat {
    match b
    case Good => 0
    case Moderate => 1
    case Poor => 2
    case Unrated => 0
  }

  /** For LCP, INP and CLS a larger value never rates better; for the speed
      score a larger value never rates worse. */
  lemma BandsAreMonotone(v: real, w: real, kind: MetricKind)
    requires v <= w
    ensures kind in {LcpKind, InpKind, ClsKind} ==>
      Severity(FormatMetric(Some(v), kind).band) <= Severity(FormatMetric(Some(w), kind).band)
    ensures kind == SpeedKind ==>
      Severity(FormatMetric(Some(v), kind).band) >= Severity(FormatMetric(Some(w), kind).band)
  {
  }

  /** `Math.max(0, Math.min(100, speed_score))`. */
  function SpeedMarker(score: int): (p: int)
    ensures 0 <= p <= 100
    ensures 0 <= score <= 100 ==> p == score
    ensures score < 0 ==> p == 0
    ensures score > 100 ==> p == 100
  {
    var capped := if score < 100 then score else 100;
    if capped < 0 then 0 else capped
  }

  datatype MetricsView = MetricsView(lcp: Formatted, inp: Formatted, cls: Formatted, speed: Formatted, marker: int)

  /** displayMetrics: every metric is shown with a band; INP, measured in
      seconds, is rated against the millisecond thresholds once multiplied by
      1000, so it is good below 0.2 s and poor from 0.5 s on. */
  function DisplayMetrics(m: Metrics): (v: MetricsView)
    ensures v.lcp.Shown? && v.inp.Shown? && v.cls.Shown? && v.speed.Shown?
    ensures v.lcp.band != Unrated && v.inp.band != Unrated && v.cls.band != Unrated && v.speed.band != Unrated
    ensures v.inp == Shown(Good) <==> m.inp < 0.2
    ensures v.inp == Shown(Poor) <==> m.inp >= 0.5
    ensures v.speed == Shown(Good) <==> m.speedScore > 80
    ensures v.speed == Shown(Poor) <==> m.speedScore <= 50
    ensures 0 <= v.marker <= 100
    ensures 0 <= m.speedScore <= 100 ==> v.marker == m.speedScore
  {
    MetricsView(
      FormatMetric(Some(m.lcp), LcpKind),
      FormatMetric(Some(m.inp * 1000.0), InpKind),
      FormatMetric(Some(m.cls), ClsKind),
      FormatMetric(Some(m.speedScore as real), SpeedKind),
      SpeedMarker(m.speedScore))
  }

  /** A reported analysis places the marker exactly at its score. */
  lemma MarkerIsTheScore(page: PageSnapshot)
    ensures DisplayMetrics(PageMetrics(page)).marker == PageMetrics(page).speedScore
  {
  }

  /** When no interaction settles INP, or the Event Timing API is missing or
      fails, the shown INP is the 200 ms or 250 ms fallback: rated moderate,
      never good. */
  lemma UnmeasuredInpIsModerate(setup: InpSetup, events: seq<InpEvent>)
    requires setup != Observing ||
      forall i | 0 <= i < |events| :: events[i].InpEntries? && Interactions(events[i].entries) == []
    ensures FormatMetric(Some(InpPromise(setup, events) * 1000.0), InpKind) == Shown(Moderate)
  {
    if setup == Observing {
      InpNoInteractionsFallback(events);
    } else {
      InpSettlesAtMostOnce(setup, events + [InpTimeout]);
    }
  }

  // ---------------------------------------------------------------------------
  // Reacting to the background script's replies

  /** A reply as the popup reads it: a missing key reads as "" or 0, which is
      what the `||` defaults and truthiness tests see. */
  datatype ReplyFields = ReplyFields(status: string, error: string, progress: nat, message: string, results: Option<Report>)

  function StatusName(s: Status): string {
    match s
    case InProgress => "in_progress"
    case Completed => "completed"
    case Error => "error"
  }

  function Fields(r: Reply): (f: ReplyFields)
    ensures f.status in {"completed", "in_progress", "error", "not_started"}
    ensures f.status == "not_started" <==> r == NotStarted
    ensures r.Stored? ==> f.status == StatusName(r.entry.status) && f.results == r.entry.results
    ensures r.Stored? ==> (f.error == "" <==> r.entry.error.None? || r.entry.error == Some(""))
    ensures r.Stored? ==> (f.progress == 0 <==> r.entry.progress.None? || r.entry.progress == Some(0))
    ensures r.Stored? && r.entry.message.Some? ==> f.message == r.entry.message.value
    ensures r == NoTabId ==> f.error == NoTabIdError
  {
    match r
    case NoTabId => ReplyFields("error", NoTabIdError, 0, "", None)
    case NotStarted => ReplyFields("not_started", "", 0, "", None)
    case Stored(e) => ReplyFields(
      StatusName(e.status),
      if e.error.Some? then e.error.value else "",
      if e.progress.Some? then e.progress.value else 0,
      if e.message.Some? then e.message.value else "",
      e.results)
  }

  /** What the popup does next. */
  datatype Action =
    | ShowError(message: string)
    | DisplayResults(report: Report)
    | ShowNotNext
    | Poll(progress: nat, text: string)
    | Restart
    | FetchResults

  const UnknownStatus := "Unknown analysis status."
  const DefaultError := "An error occurred during analysis."

  /** displayResults: anything but a Next.js result shows the not-Next view. */
  function ShowResults(results: Option<Report>): (a: Action)
    ensures a.DisplayResults? <==> results.Some? && results.value.NextReport?
    ensures a.DisplayResults? ==> a.report == results.value
    ensures !a.DisplayResults? ==> a == ShowNotNext
  {
    if results.Some? && results.value.NextReport? then DisplayResults(results.value) else ShowNotNext
  }

  const CheckFailedPrefix := "Error checking results: "
  const NoResultsResponse := "No response received from background script."

  /** The callback of the `getResults` request in checkResults: a runtime
      error, a missing response and an `error` key are shown first, in that
      order; then the status decides. */
  function CheckResults(lastError: Option<string>, response: Option<ReplyFields>): (a: Action)
    ensures a.Poll? ==> a.progress > 0 && a.text != ""
    ensures a.ShowError? ==> a.message != ""
    ensures a.DisplayResults? ==> a.report.NextReport?
    ensures a != FetchResults
    ensures lastError.Some? ==> a == ShowError(CheckFailedPrefix + lastError.value)
    ensures lastError.None? && response.None? ==> a == ShowError(NoResultsResponse)
    ensures lastError.None? && response.Some? && response.value.error != "" ==> a == ShowError(response.value.error)
    ensures lastError.None? && response.Some? && response.value.error == "" ==>
      var r := response.value;
      (r.status == "completed" ==> a == ShowResults(r.results)) &&
      (r.status == "in_progress" ==>
        a == Poll(if r.progress == 0 then 30 else r.progress, if r.message == "" then "Analyzing..." else r.message)) &&
      (r.status == "not_nextjs" ==> a == ShowNotNext) &&
      (r.status == "error" ==> a == ShowError(if r.message == "" then DefaultError else r.message)) &&
      (r.status == "not_started" ==> a == Restart) &&
      (r.status !in {"completed", "in_progress", "not_nextjs", "error", "not_started"} ==> a == ShowError(UnknownStatus))
  {
    if lastError.Some? then ShowError(CheckFailedPrefix + lastError.value)
    else if response.None? then ShowError(NoResultsResponse)
    else
      var r := response.value;
      if r.error != "" then ShowError(r.error)
      else if r.status == "completed" then ShowResults(r.results)
      else if r.status == "in_progress" then
        Poll(if r.progress == 0 then 30 else r.progress, if r.message == "" then "Analyzing..." else r.message)
      else if r.status == "not_nextjs" then ShowNotNext
      else if r.status == "error" then ShowError(if r.message == "" then DefaultError else r.message)
      else if r.status == "not_started" then Restart
      else ShowError(UnknownStatus)
  }

  /** The callback of the `startAnalysis` request in the popup's startAnalysis. */
  function OnStartResponse(lastError: Option<string>, response: Option<StartResult>): (a: Action)
    ensures a == FetchResults || a.ShowError?
  {
    if lastError.Some? then ShowError("Error starting analysis: " + lastError.value)
    else if response.None? then ShowError("No response received from the background script.")
    else if response.value.StartFailed? && response.value.error != "" then ShowError(response.value.error)
    else FetchResults
  }

  /** The popup polls the results exactly when the background script started
      the analysis, and otherwise shows the background script's message. */
  lemma StartFailuresAreShown(pingAlive: bool, sendOk: bool)
    ensures OnStartResponse(None, Some(StartOutcome(pingAlive, sendOk))) == FetchResults <==> pingAlive && sendOk
    ensures !pingAlive ==> OnStartResponse(None, Some(StartOutcome(pingAlive, sendOk))) == ShowError(NeedsInitialization)
    ensures pingAlive && !sendOk ==> OnStartResponse(None, Some(StartOutcome(pingAlive, sendOk))) == ShowError(CouldNotCommunicate)
  {
  }

  /** No reply of getResults reaches the 'not_nextjs' or the unknown-status
      branch: the not-Next view comes only from a completed entry without a
      Next.js result, and a restart only from a tab with no entry. */
  lemma StoredRepliesDispatch(r: Reply)
    ensures Fields(r).status in {"completed", "in_progress", "error", "not_started"}
    ensures CheckResults(None, Some(Fields(r))) == ShowNotNext <==>
      r.Stored? && (r.entry.error.None? || r.entry.error == Some("")) && r.entry.status == Completed &&
      !(r.entry.results.Some? && r.entry.results.value.NextReport?)
    ensures CheckResults(None, Some(Fields(r))) == Restart <==> r == NotStarted
  {
  }

  /** A stored `error` key wins over the status: an error entry that a later
      progress update turned back to in_progress is still shown as the error. */
  lemma ErrorKeyWins(e: Entry, msg: string)
    requires e.error == Some(msg) && msg != ""
    ensures CheckResults(None, Some(Fields(Stored(e)))) == ShowError(msg)
  {
  }

  /** The entry startAnalysis stores (progress 0) shows the bar at 30 %. */
  lemma FreshEntryPollsAtThirty(now: int)
    ensures CheckResults(None, Some(Fields(Stored(StartedEntry(now))))) == Poll(30, "Analyzing...")
  {
  }

  /** A progress update the background script stored for a tab without an
      error key moves the popup's bar to that progress and shows its text;
      progress 0 and an empty text read as 30 and "Analyzing...". */
  lemma ProgressUpdatesReachTheBar(m: map<int, Entry>, tab: int, progress: nat, text: string, now: int)
    requires tab != 0
    requires tab !in m || m[tab].error.None? || m[tab].error == Some("")
    ensures var stored := Handle(m, FromContent(ProgressUpdate(progress, text)), Some(tab), false, false, now).tabResults;
      CheckResults(None, Some(Fields(GetResults(stored, tab)))) ==
        Poll(if progress == 0 then 30 else progress, if text == "" then "Analyzing..." else text)
  {
  }

  /** End to end: the last message of an analysis, stored by the background
      script for the sender's tab, makes the popup show the report, the
      not-Next view, or the analysis error. */
  lemma AnalysisOutcomeReachesPopup(page: PageSnapshot, m: map<int, Entry>, tab: int, now: int)
    requires tab != 0
    ensures var last := Trace(page)[|Trace(page)| - 1];
      var stored := Handle(m, FromContent(last), Some(tab), false, false, now).tabResults;
      var action := CheckResults(None, Some(Fields(GetResults(stored, tab))));
      (!page.isNextJs ==> action == ShowNotNext) &&
      (page.isNextJs && Failed(page).Some? ==> action == ShowError(ErrorText(Failed(page).value))) &&
      (page.isNextJs && Failed(page).None? ==> action == DisplayResults(FinalReport(page)))
  {
    OneTerminalMessage(page);
  }
}
