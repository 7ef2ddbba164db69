/**
 * The background script: the per-tab result store `tabResults`, the functions
 * that change it (`clearTab`, `startAnalysis`) or read it (`getResults`), and
 * the branches of the runtime message listener that update it.
 *
 * Tab ids are integers; 0 stands for every falsy id (`undefined`, `null`, 0),
 * which is what the code tests with `tabId && ...` and `!tabId`. The content
 * script's ping, the delivery of the `startAnalysis` message and `Date.now()`
 * are parameters. A stored entry is the JavaScript object the map holds; a key
 * the object does not have is `None`.
 */
module Background {
  import opened Wrappers
  import opened ContentScript

  datatype Status = InProgress | Completed | Error

  datatype Entry = Entry(
    status: Status,
    progress: Option<nat>,
    message: Option<string>,
    error: Option<string>,
    results: Option<Report>,
    /** The `metrics: null` key of the entry startAnalysis stores. */
    metricsNull: bool,
    timestamp: int)

  const NeedsInitialization := "Please refresh the page and try again. The extension needs to be initialized."
  const CouldNotCommunicate := "Could not communicate with content script. Please refresh the page and try again."
  const NoTabIdError := "No tab ID provided"

  /** `{status: 'error', error, timestamp}`. */
  function ErrorEntry(error: string, now: int): Entry {
    Entry(Error, None, None, Some(error), None, false, now)
  }

  /** `{status: 'in_progress', progress: 0, timestamp, metrics: null}`. */
  function StartedEntry(now: int): Entry {
    Entry(InProgress, Some(0), None, None, None, true, now)
  }

  /** `{status: 'completed', results: message, timestamp}`. */
  function CompletedEntry(report: Report, now: int): Entry {
    Entry(Completed, None, None, None, Some(report), false, now)
  }

  /** `{...currentData, status: 'in_progress', progress, message, timestamp}`
      with `currentData` the stored entry or `{}`. */
  function ProgressEntry(current: Option<Entry>, progress: nat, text: string, now: int): (e: Entry)
    ensures e.status == InProgress && e.progress == Some(progress) && e.message == Some(text) && e.timestamp == now
    ensures current.Some? ==>
      e.error == current.value.error && e.results == current.value.results && e.metricsNull == current.value.metricsNull
    ensures current.None? ==> e.error.None? && e.results.None? && !e.metricsNull
  {
    match current
    case None => Entry(InProgress, Some(progress), Some(text), None, None, false, now)
    case Some(c) => c.(status := InProgress, progress := Some(progress), message := Some(text), timestamp := now)
  }

  /** What startAnalysis resolves to: `{success: true}` or `{success: false, error}`. */
  datatype StartResult = Started | StartFailed(error: string)

  /** What getResults returns. */
  datatype Reply = NoTabId | NotStarted | Stored(entry: Entry)

  /** The messages the listener receives: the popup's requests, each naming a
      tab, and the content script's messages, which name none. */
  datatype Request =
    | StartAnalysisRequest(tabId: int)
    | GetResultsRequest(tabId: int)
    | ClearResultsRequest(tabId: int)

  datatype Incoming = FromPopup(request: Request) | FromContent(message: Message)

  datatype Response =
    | StartResponse(result: StartResult)
    | ResultsResponse(reply: Reply)
    | ClearResponse(success: bool)
    | Acknowledged
    | NoResponse

  datatype Handled = Handled(tabResults: map<int, Entry>, response: Response)

  // ---------------------------------------------------------------------------
  // The store as a value

  /** clearTab on the map: a falsy id or a missing entry leaves it as it is. */
  function AfterClear(m: map<int, Entry>, tabId: int): map<int, Entry> {
    if tabId != 0 && tabId in m then m - {tabId} else m
  }

  /** startAnalysis on the map, once the ping and the start message have
      had their outcome. */
  function AfterStart(m: map<int, Entry>, tabId: int, pingAlive: bool, sendOk: bool, now: int): map<int, Entry> {
    var cleared := AfterClear(m, tabId);
    if !pingAlive then cleared[tabId := ErrorEntry(NeedsInitialization, now)]
    else if !sendOk then cleared[tabId := ErrorEntry(CouldNotCommunicate, now)]
    else cleared[tabId := StartedEntry(now)]
  }

  /** What startAnalysis resolves to: success exactly when the ping and the
      start message both got through, otherwise the reason for the failure. */
  function StartOutcome(pingAlive: bool, sendOk: bool): (r: StartResult)
    ensures r == Started <==> pingAlive && sendOk
    ensures !pingAlive ==> r == StartFailed(NeedsInitialization)
    ensures pingAlive && !sendOk ==> r == StartFailed(CouldNotCommunicate)
  {
    if !pingAlive then StartFailed(NeedsInitialization)
    else if !sendOk then StartFailed(CouldNotCommunicate)
    else Started
  }

  /** getResults: it only reads the map. */
  function GetResults(m: map<int, Entry>, tabId: int): (r: Reply)
    ensures r == NoTabId <==> tabId == 0
    ensures r == NotStarted <==> tabId != 0 && tabId !in m
    ensures r.Stored? <==> tabId != 0 && tabId in m
    ensures r.Stored? ==> r.entry == m[tabId]
  {
    if tabId == 0 then NoTabId
    else if tabId !in m then NotStarted
    else Stored(m[tabId])
  }

  /** `message.tabId || (sender.tab && sender.tab.id)`: a popup request's own
      truthy id wins; otherwise the sending tab's id, or 0 (falsy) without one. */
  function ResolveTabId(incoming: Incoming, senderTab: Option<int>): (t: int)
    ensures incoming.FromPopup? && incoming.request.tabId != 0 ==> t == incoming.request.tabId
    ensures incoming.FromContent? || incoming.request.tabId == 0 ==>
      t == (if senderTab.Some? then senderTab.value else 0)
    ensures t == 0 <==> (incoming.FromContent? || incoming.request.tabId == 0) && (senderTab.None? || senderTab == Some(0))
  {
    var own := if incoming.FromPopup? then incoming.request.tabId else 0;
    if own != 0 then own else if senderTab.Some? then senderTab.value else 0
  }

  /** One run of the message listener. A popup request always gets its
      response; a content-script message is stored under the sender's tab and
      acknowledged, or dropped without a response when no tab resolves. */
  function Handle(m: map<int, Entry>, incoming: Incoming, senderTab: Option<int>,
                  pingAlive: bool, sendOk: bool, now: int): (h: Handled)
    ensures incoming.FromPopup? && incoming.request.StartAnalysisRequest? ==>
      h.response == StartResponse(StartOutcome(pingAlive, sendOk)) &&
      incoming.request.tabId in h.tabResults && h.tabResults[incoming.request.tabId].timestamp == now
    ensures incoming.FromPopup? && incoming.request.GetResultsRequest? ==>
      h == Handled(m, ResultsResponse(GetResults(m, incoming.request.tabId)))
    ensures incoming.FromPopup? && incoming.request.ClearResultsRequest? ==>
      h.response == ClearResponse(incoming.request.tabId != 0 && incoming.request.tabId in m) &&
      h.tabResults == AfterClear(m, incoming.request.tabId)
    ensures incoming.FromContent? ==>
      (h.response == Acknowledged <==> ResolveTabId(incoming, senderTab) != 0) &&
      (h.response != Acknowledged ==> h == Handled(m, NoResponse))
    ensures incoming.FromContent? && ResolveTabId(incoming, senderTab) != 0 ==>
      ResolveTabId(incoming, senderTab) in h.tabResults &&
      var e := h.tabResults[ResolveTabId(incoming, senderTab)];
      e.timestamp == now &&
      (incoming.message.ProgressUpdate? ==>
        e.status == InProgress && e.progress == Some(incoming.message.progress) && e.message == Some(incoming.message.text)) &&
      (incoming.message.AnalysisCompleted? ==> e.status == Completed && e.results == Some(incoming.message.report)) &&
      (incoming.message.AnalysisError? ==> e.status == Error && e.error == Some(incoming.message.error))
  {
    var tabId := ResolveTabId(incoming, senderTab);
    match incoming
    case FromPopup(StartAnalysisRequest(t)) =>
      Handled(AfterStart(AfterClear(m, tabId), t, pingAlive, sendOk, now), StartResponse(StartOutcome(pingAlive, sendOk)))
    case FromPopup(GetResultsRequest(t)) =>
      Handled(m, ResultsResponse(GetResults(m, t)))
    case FromPopup(ClearResultsRequest(t)) =>
      Handled(AfterClear(m, t), ClearResponse(t != 0 && t in m))
    case FromContent(ProgressUpdate(progress, text)) =>
      if tabId == 0 then Handled(m, NoResponse)
      else Handled(m[tabId := ProgressEntry(if tabId in m then Some(m[tabId]) else None, progress, text, now)], Acknowledged)
    case FromContent(AnalysisCompleted(report)) =>
      if tabId == 0 then Handled(m, NoResponse)
      else Handled(m[tabId := CompletedEntry(report, now)], Acknowledged)
    case FromContent(AnalysisError(error)) =>
      if tabId == 0 then Handled(m, NoResponse)
      else Handled(m[tabId := ErrorEntry(error, now)], Acknowledged)
  }

  /** The tabs whose entry a message may change. */
  function Touched(incoming: Incoming, senderTab: Option<int>): set<int> {
    match incoming
    case FromPopup(StartAnalysisRequest(t)) => {ResolveTabId(incoming, senderTab), t}
    case FromPopup(GetResultsRequest(_)) => {}
    case FromPopup(ClearResultsRequest(t)) => {t}
    case FromContent(_) => {ResolveTabId(incoming, senderTab)}
  }

  // ---------------------------------------------------------------------------
  // The store as the script keeps it

  class TabStore {
    var tabResults: map<int, Entry>

    constructor ()
      ensures tabResults == map[]
    {
      tabResults := map[];
    }

    method ClearTab(tabId: int) returns (removed: bool)
      modifies this
      ensures removed <==> tabId != 0 && tabId in old(tabResults)
      ensures tabResults == AfterClear(old(tabResults), tabId)
    {
      if tabId != 0 && tabId in tabResults {
        tabResults := tabResults - {tabId};
        return true;
      }
      return false;
    }

    method StartAnalysis(tabId: int, pingAlive: bool, sendOk: bool, now: int) returns (result: StartResult)
      modifies this
      ensures tabResults == AfterStart(old(tabResults), tabId, pingAlive, sendOk, now)
      ensures result == StartOutcome(pingAlive, sendOk)
    {
      var _ := ClearTab(tabId);
      if !pingAlive {
        tabResults := tabResults[tabId := ErrorEntry(NeedsInitialization, now)];
        return StartFailed(NeedsInitialization);
      }
      tabResults := tabResults[tabId := StartedEntry(now)];
      if !sendOk {
        tabResults := tabResults[tabId := ErrorEntry(CouldNotCommunicate, now)];
        return StartFailed(CouldNotCommunicate);
      }
      return Started;
    }

    /** The runtime message listener. */
    method OnMessage(incoming: Incoming, senderTab: Option<int>, pingAlive: bool, sendOk: bool, now: int)
      returns (response: Response)
      modifies this
      ensures Handled(tabResults, response) == Handle(old(tabResults), incoming, senderTab, pingAlive, sendOk, now)
    {
      var tabId := ResolveTabId(incoming, senderTab);
      match incoming {
        case FromPopup(StartAnalysisRequest(t)) =>
          var _ := ClearTab(tabId);
          var result := StartAnalysis(t, pingAlive, sendOk, now);
          response := StartResponse(result);
        case FromPopup(GetResultsRequest(t)) =>
          response := ResultsResponse(GetResults(tabResults, t));
        case FromPopup(ClearResultsRequest(t)) =>
          var success := ClearTab(t);
          response := ClearResponse(success);
        case FromContent(ProgressUpdate(progress, text)) =>
          if tabId == 0 {
            response := NoResponse;
          } else {
            var current := if tabId in tabResults then Some(tabResults[tabId]) else None;
            tabResults := tabResults[tabId := ProgressEntry(current, progress, text, now)];
            response := Acknowledged;
          }
        case FromContent(AnalysisCompleted(report)) =>
          if tabId == 0 {
            response := NoResponse;
          } else {
            tabResults := tabResults[tabId := CompletedEntry(report, now)];
            response := Acknowledged;
          }
        case FromContent(AnalysisError(error)) =>
          if tabId == 0 {
            response := NoResponse;
          } else {
            tabResults := tabResults[tabId := ErrorEntry(error, now)];
            response := Acknowledged;
          }
      }
    }

    /** `chrome.tabs.onRemoved`. */
    method OnTabRemoved(tabId: int)
      modifies this
      ensures tabResults == AfterClear(old(tabResults), tabId)
      ensures tabId != 0 ==> tabId !in tabResults
    {
      var _ := ClearTab(tabId);
    }
  }

  // ---------------------------------------------------------------------------
  // Properties of the store

  /** clearTab removes the entry of a truthy id and nothing else; a falsy id
      changes nothing. */
  lemma ClearRemovesOnlyThatTab(m: map<int, Entry>, tabId: int)
    ensures tabId != 0 ==> tabId !in AfterClear(m, tabId)
    ensures tabId == 0 ==> AfterClear(m, tabId) == m
    ensures forall k | k != tabId :: (k in AfterClear(m, tabId) <==> k in m)
    ensures forall k | k != tabId && k in m :: AfterClear(m, tabId)[k] == m[k]
  {
  }

  /** startAnalysis always leaves one fresh entry for the tab: nothing of an
      earlier analysis (results, progress message, error) survives, and the
      entry is in progress exactly when the ping and the start message both
      got through. */
  lemma StartLeavesFreshEntry(m: map<int, Entry>, tabId: int, pingAlive: bool, sendOk: bool, now: int)
    ensures var e := AfterStart(m, tabId, pingAlive, sendOk, now);
      tabId in e && e[tabId].results.None? && e[tabId].message.None? && e[tabId].timestamp == now &&
      (e[tabId].status == InProgress <==> pingAlive && sendOk) &&
      (e[tabId].status == InProgress ==> e[tabId].progress == Some(0) && e[tabId].error.None?) &&
      (e[tabId].status == Error ==> StartOutcome(pingAlive, sendOk) == StartFailed(e[tabId].error.value))
    ensures forall k | k != tabId && k in m ::
      k in AfterStart(m, tabId, pingAlive, sendOk, now) && AfterStart(m, tabId, pingAlive, sendOk, now)[k] == m[k]
  {
  }

  /** A message changes at most the entries of the tabs it names. */
  lemma HandleTouchesOnlyItsTabs(m: map<int, Entry>, incoming: Incoming, senderTab: Option<int>,
                                 pingAlive: bool, sendOk: bool, now: int)
    ensures var r := Handle(m, incoming, senderTab, pingAlive, sendOk, now).tabResults;
      forall k | k !in Touched(incoming, senderTab) :: (k in r <==> k in m) && (k in m ==> r[k] == m[k])
  {
    var r := Handle(m, incoming, senderTab, pingAlive, sendOk, now).tabResults;
    var tabId := ResolveTabId(incoming, senderTab);
    if incoming.FromPopup? && incoming.request.StartAnalysisRequest? {
      ClearRemovesOnlyThatTab(m, tabId);
      ClearRemovesOnlyThatTab(AfterClear(m, tabId), incoming.request.tabId);
    } else if incoming.FromPopup? && incoming.request.ClearResultsRequest? {
      ClearRemovesOnlyThatTab(m, incoming.request.tabId);
    }
  }

  /** getResults never changes the store. */
  lemma GetResultsIsReadOnly(m: map<int, Entry>, t: int, senderTab: Option<int>, pingAlive: bool, sendOk: bool, now: int)
    ensures Handle(m, FromPopup(GetResultsRequest(t)), senderTab, pingAlive, sendOk, now).tabResults == m
    ensures Handle(m, FromPopup(GetResultsRequest(t)), senderTab, pingAlive, sendOk, now).response.reply.Stored? ==>
      Handle(m, FromPopup(GetResultsRequest(t)), senderTab, pingAlive, sendOk, now).response.reply.entry == m[t]
  {
  }

  /** A content-script message from no resolvable tab is dropped: the store is
      unchanged and no response is sent. */
  lemma UnaddressedReportsAreDropped(m: map<int, Entry>, message: Message, senderTab: Option<int>,
                                     pingAlive: bool, sendOk: bool, now: int)
    requires senderTab.None? || senderTab == Some(0)
    ensures Handle(m, FromContent(message), senderTab, pingAlive, sendOk, now) == Handled(m, NoResponse)
  {
  }

  /** A progress update turns a completed entry back into an in-progress one
      and keeps its results: nothing orders progress before completion. */
  lemma ProgressRevertsCompleted(m: map<int, Entry>, tab: int, progress: nat, text: string, now: int)
    requires tab != 0 && tab in m && m[tab].status == Completed
    ensures var e := Handle(m, FromContent(ProgressUpdate(progress, text)), Some(tab), false, false, now).tabResults[tab];
      e.status == InProgress && e.results == m[tab].results && e.progress == Some(progress)
  {
  }

  /** Completion and error messages replace the entry wholesale, whatever was
      stored before. */
  lemma TerminalMessagesReplaceEntry(m: map<int, Entry>, tab: int, report: Report, error: string, now: int)
    requires tab != 0
    ensures Handle(m, FromContent(AnalysisCompleted(report)), Some(tab), false, false, now).tabResults ==
      m[tab := CompletedEntry(report, now)]
    ensures Handle(m, FromContent(AnalysisError(error)), Some(tab), false, false, now).tabResults ==
      m[tab := ErrorEntry(error, now)]
  {
  }

  /** An entry stored under a falsy id (startAnalysis called without a tab)
      can never be removed: clearTab skips falsy ids. */
  lemma FalsyTabEntryIsNeverCleared(m: map<int, Entry>, pingAlive: bool, sendOk: bool, now: int, tabId: int)
    ensures 0 in AfterStart(m, 0, pingAlive, sendOk, now)
    ensures 0 in m ==> 0 in AfterClear(m, tabId)
  {
  }
}
