# Next.js performance analyzer: a verified model of the extension's core

This project models the three scripts of the browser extension that rates a
Next.js page's performance.

- **Content script.** It collects Largest Contentful Paint (LCP), Cumulative Layout Shift (CLS) and Interaction to
  Next Paint (INP). Each comes from a promise that a PerformanceObserver
  callback or a timer settles. It sums the page's resource entries and turns
  them into a 0-100 speed score. It derives an ordered list of
  recommendations and drives one analysis (`runAnalysis`) with a re-entrancy flag and
  progress checkpoints.
- **Background script.** It keeps one result entry per browser tab and
  updates it from the popup's requests and the content script's messages.
- **Popup.** It rates each metric (good / moderate / poor), places the speed
  marker, and decides what to do with each reply of the background script.

Browser facts are inputs:
- what the DOM heuristics detect;
- the observer callbacks and timer firings, as event sequences;
- the resource entries;
- the ping and message-delivery outcomes;
- `Date.now()`.

Each collector is a state datatype with a step function, a fold over its
events, and a class whose methods are the two callbacks. The content script
and the tab store are classes whose methods update their fields as the
scripts do.

Modules:

- `Wrappers`: `Option`.
- `Page`: detection results and navigation timing.
- `Resources`: `getResourceMetrics` and `calculateSpeedScore`.
- `Collectors`: `getLCP`, `getCLS` and `getINP`.
- `Advice`: `generateRecommendations` and the rule table that specifies it.
- `ContentScript`: `cleanup`, the collector drivers and `runAnalysis`.
- `Background`: the `tabResults` store and the message listener.
- `Popup`: `formatMetric`, the marker clamp, and the `startAnalysis` / `checkResults` callbacks.

Behaviours of the code worth knowing, which the model keeps:
- LCP is the last entry of the settling callback, not the largest start time seen.
- The LCP timer uses the navigation fallback even after entries were seen.
- CLS is a plain sum with no session windows, and with no shifts it is 0.
- INP is computed from the interactions delivered in one callback.
- The collectors run one after another, not concurrently.
- A throwing LCP or CLS observer setup aborts the analysis with `analysisError`. Only getINP substitutes a fallback (0.25 s).
- Each collector disconnects its observer when it settles. The keys of the `observers` and `timeouts` maps stay set after an analysis ends, until the next analysis's `cleanup` empties them. An LCP or INP timer still armed when its observer settled first is not cleared. Neither is the INP timer armed after a throwing observer setup. Each fires on its own, 5000 ms or 2000 ms after it was set, and does nothing because `resolved` is already set.

## Model

| member | source | states |
|---|---|---|
| Page.GetNavigationTiming | content.js:190-199 | No navigation entry gives no timing. For an entry with its timestamps in load order, 0 <= TTFB <= DOM load <= window load |
| Page.TimingIgnoresTimeOrigin | content.js:190-199 | Shifting every timestamp of the navigation entry by the same amount changes none of the three durations |
| Resources.Bytes | content.js:204 | The byte total is 0 exactly when no entry transferred any bytes |
| Resources.Scripts | content.js:207-212 | The script filter never yields more entries than it is given |
| Resources.ScriptsAreTheScriptEntries | content.js:207-212 | The filter keeps exactly the entries named `.js`/`.jsx` or initiated by a script |
| Resources.CountSlow | content.js:220 | The count of slow entries is at most the number of entries |
| Resources.NoSlowIffCountZero | content.js:220 | The slow count is 0 exactly when no entry takes longer than 1000 ms |
| Resources.GetResourceMetrics | content.js:202-222 | `totalResources` is the entry count; the script count and the slow count are at most that; script bytes are at most total bytes |
| Resources.ScriptBytesAtMostTotal | content.js:204-213 | The bytes of the script entries never exceed the bytes of all entries |
| Resources.BytesOfConcat | content.js:204 | The byte reduce over two batches is the sum of the two reduces |
| Resources.ScriptsOfConcat | content.js:207-212 | Filtering two batches together is filtering each and concatenating |
| Resources.CountSlowOfConcat | content.js:220 | The slow count over two batches is the sum of the counts |
| Resources.MetricsOfConcat | content.js:202-222 | getResourceMetrics maps concatenated entry lists to field-wise sums |
| Resources.Round | content.js:295 | `Math.round` returns the integer within half a unit, halves rounding up |
| Resources.RoundShift | content.js:295 | Rounding commutes with subtracting a whole-number penalty |
| Resources.RoundMonotone | content.js:295 | Rounding is monotone |
| Resources.CalculateSpeedScore | content.js:269-296 | The score is an integer in [0, 100]: the rounded base `max(0, 100 - KB/50)` less both penalties, floored at 0 once. The penalties are 20 (Pages Router) or 10 for the CSR signal, and 15 for more than 1000 KB of script. While the base is at least 35, each trigger costs exactly its penalty |
| Resources.PagesRouterScoresNoHigher | content.js:283-287 | On the same resources the Pages Router never scores higher than another router |
| Resources.EmptyTransferScoresFull | content.js:276-279 | With zero bytes the ratio's denominator is 1, so the page scores 100 unless it loads more than 15 scripts |
| Advice.RoundKBIsRound | content.js:413 | The integer kilobyte figure equals `Math.round(bytes / 1024)` |
| Advice.GenerateRecommendations | content.js:397-517 | The pushed list is in rule order and holds exactly the recommendations the rule table fires for the metrics, router, resource totals and image count |
| Advice.GroupsAreRules | content.js:397-517 | The pushes of the five rule groups compose to the full rule fold |
| Advice.EntryIsTheTable | content.js:406-514 | The k-th rule fires exactly the table's recommendation of rank k |
| Advice.RulesCover | content.js:406-514 | The first n rules produce, in order, exactly the table's recommendations of rank below n |
| Advice.RulesAreAdvice | content.js:406-514 | The full fold is rule-ordered and equals the rule table |
| Advice.AdviceIsUnique | content.js:406-514 | Two rule-ordered lists with the same members are equal, so the advice for given inputs is unique |
| Advice.SameMembersInOrder | content.js:406-514 | Strictly rank-ordered lists with the same members are equal |
| Advice.OneRouterRecommendation | content.js:476-491 | Exactly one of "Upgrade to App Router" and "Optimize App Router Usage" is present; the upgrade appears iff the router is Pages |
| Advice.DirectlyAfter | content.js:406-514 | In rule-ordered advice, an entry ranked one above a present entry comes right after it |
| Advice.FontFollowsLcp | content.js:446-464 | The font entry needs LCP > 4.0 and always comes right after the LCP entry |
| Advice.ServerComponentsFollowBundle | content.js:410-424 | "Implement Next.js Server Components" always comes right after the JS-bundle entry with its KB and count |
| Advice.LowScoreEntriesNeedLowScore | content.js:406-444 | With a speed score of 60 or more, none of the bundle, server-components, data-fetching or SWC entries appears |
| Advice.RuleOrderIsNotImpactOrder | content.js:476-514 | Rule order is not impact order: there are inputs whose advice is a Medium entry followed by a High one |
| Collectors.LcpSettlesAtMostOnce | content.js:228-264 | getLCP settles at most once; it is resolved iff it has settled, and it observes iff it is unresolved |
| Collectors.LcpPendingUntilResolving | content.js:238-262 | The promise is pending exactly while no event has been a complete-document callback with entries or the timer |
| Collectors.LcpSettledAtFirstResolving | content.js:231-262 | The settled value is that of the first resolving event: the latest entry's `startTime / 1000`, or the timer's fallback |
| Collectors.LcpSettledIsFinal | content.js:238-252 | Once resolved, later callbacks change only the unused `lcp` variable |
| Collectors.LcpTimeoutValue | content.js:250-264 | If nothing settled first, the timer resolves `(domContentLoadedEventEnd - requestStart) / 1000 + 0.2` of the navigation entry getNavigationTiming reads, or 3.0 without one |
| Collectors.LcpPromise | content.js:225-266 | The promise's value is the single value settled once the timer has fired |
| Collectors.LcpCollector.constructor | content.js:226-250 | The executor leaves an unresolved, observing collector |
| Collectors.LcpCollector.OnEntries | content.js:231-245 | The observer callback performs exactly one LCP step |
| Collectors.LcpCollector.OnTimeout | content.js:250-264 | The 5000 ms timer callback performs exactly one LCP step |
| Collectors.ClsValueIsObservedSum | content.js:304-310 | `clsValue` is the sum of `value` over every delivered shift without recent input |
| Collectors.ClsSettlesAtMostOnce | content.js:301-321 | getCLS settles at most once; resolved iff settled; observing iff unresolved |
| Collectors.ClsPendingUntilTimeout | content.js:315-321 | The observer never settles CLS: it is pending exactly until the timer fires |
| Collectors.ClsSettledAtFirstTimeout | content.js:315-321 | The settled value is the shift sum delivered before the timer fired |
| Collectors.ShiftSumIgnoresInput | content.js:306-308 | Shifts that all had recent input contribute 0 |
| Collectors.ClsPromise | content.js:299-323 | The promise's value is the single value settled once the timer has fired |
| Collectors.ClsCollector.constructor | content.js:300-315 | The executor leaves an unresolved, observing collector with sum 0 |
| Collectors.ClsCollector.OnEntries | content.js:304-310 | The observer callback's loop adds exactly this batch's shifts without recent input |
| Collectors.ClsCollector.OnTimeout | content.js:315-321 | The 2000 ms timer callback performs exactly one CLS step |
| Collectors.Interactions | content.js:347 | The interaction filter never yields more entries than it is given |
| Collectors.InteractionsAreTheTruthyIds | content.js:347 | The filter keeps exactly the entries with a truthy `interactionId` |
| Collectors.InsertByDuration | content.js:348 | Insertion adds one element |
| Collectors.InsertAddsOne | content.js:348 | Insertion adds exactly the inserted entry to the multiset |
| Collectors.InsertKeepsDescending | content.js:348 | Insertion into a list sorted by descending duration keeps it sorted |
| Collectors.SortByDurationDesc | content.js:348 | Sorting keeps the length |
| Collectors.SortSorts | content.js:348 | The sort's output is in descending duration order and is a permutation of its input |
| Collectors.SortIsDescending | content.js:348 | The sort's output is in descending duration order |
| Collectors.SortIsPermutation | content.js:348 | The sort's output is a permutation of its input |
| Collectors.PercentileIndex | content.js:352-353 | `min(floor(0.02 n), n - 1)` is a valid index, and it is 0 when n < 50 |
| Collectors.LongestFirst | content.js:348-353 | The first sorted entry is an input entry whose duration no input entry exceeds |
| Collectors.BatchInp | content.js:346-354 | A callback's batch gives an INP estimate exactly when it holds at least one interaction |
| Collectors.SmallBatchInpIsLongest | content.js:346-354 | With fewer than 50 interactions the estimate is the longest interaction's duration in seconds |
| Collectors.BatchInpIsObserved | content.js:346-354 | The estimate is always the duration of an interaction actually delivered |
| Collectors.InpValueIsLatest | content.js:341-356 | The `inp` variable holds the estimate of the last callback that had interactions (0 if none) |
| Collectors.InpSettlesAtMostOnce | content.js:329-392 | getINP settles at most once; resolved iff settled; observing iff unresolved; without the API or after a throwing setup it has settled 0.25 |
| Collectors.InpPendingUntilResolving | content.js:358-390 | The observing promise is pending exactly until a complete-document callback with at least 5 interactions, or the timer |
| Collectors.InpSettledAtFirstResolving | content.js:358-390 | The settled value is that of the first resolving event |
| Collectors.InpSettleValue | content.js:358-390 | An observer-path value is at least 0.1 s and a timer value at least 0.2 s |
| Collectors.InpSettledFloor | content.js:332-390 | Every settled INP value is at least 0.1 s |
| Collectors.FirstInpResolving | content.js:358-390 | Any resolving event has a first resolving event at or before it |
| Collectors.InpNoInteractionsFallback | content.js:378-390 | With no interactions observed, the timer resolves exactly 0.2 s |
| Collectors.LatestInpWithoutInteractions | content.js:341-356 | Without interactions the `inp` variable stays 0 |
| Collectors.InpPromise | content.js:326-394 | The promise's value is the single value settled after the timer, and at least 0.1 s |
| Collectors.InpCollector.constructor | content.js:329-375 | The API check, the observer setup and its catch leave the collector in its initial state for that setup |
| Collectors.InpCollector.OnEntries | content.js:341-366 | The observer callback performs exactly one INP step |
| Collectors.InpCollector.OnTimeout | content.js:378-392 | The 2000 ms timer callback performs exactly one INP step |
| ContentScript.ErrorText | content.js:609-614 | `error.message \|\| 'Unknown error during analysis'` is never empty and keeps a non-empty message |
| ContentScript.PageMetrics | content.js:565-583 | The metrics object carries the settled INP unchanged (at least 0.1 s) and a speed score in [0, 100] |
| ContentScript.FinalReport | content.js:592-599 | The completed result carries the collected metrics, the detected configuration and the router |
| ContentScript.TraceAfterFirstCheckpoint | content.js:548-614 | After its first checkpoint, a Next.js page's analysis sends the 30, 50 and 70 checkpoints and then either the error message or the 90 checkpoint and the full report |
| ContentScript.ContentScript.constructor | content.js:19-21 | The script starts not analysing, with no observers, no timers and nothing sent |
| ContentScript.ContentScript.Cleanup | content.js:24-47 | Both maps are emptied and the flag is cleared; nothing else changes |
| ContentScript.ContentScript.SendMessage | content.js:50-63 | A message is appended to what has been sent, at an await that sees the current flag; it never throws |
| ContentScript.ContentScript.GetLcp | content.js:225-266 | It resolves the LCP promise value, or rejects with the setup error; it registers the observer and the timer |
| ContentScript.ContentScript.GetCls | content.js:299-323 | It resolves the CLS promise value, or rejects with the setup error; it registers the observer and the timer |
| ContentScript.ContentScript.GetInp | content.js:326-394 | It resolves the INP promise value. The observer is registered only when observing; the timer unless the API is missing |
| ContentScript.ContentScript.RunAnalysis | content.js:522-621 | A call with the flag set returns the in-progress error and changes nothing. Otherwise it sends exactly the analysis trace, returns the expected outcome, and leaves the flag cleared with the exact observer and timer keys. At none of its awaits is the flag set |
| ContentScript.ContentScript.AnalyzeNextPage | content.js:538-614 | On a Next.js page: the 30/50/70 checkpoints, then either the error report or the 90 checkpoint and the completed report |
| ContentScript.ContentScript.CollectMetrics | content.js:565-583 | The first rejecting collector's message, or the metrics object with the INP guard and the speed score |
| ContentScript.ContentScript.SendReport | content.js:588-603 | The 90 checkpoint, then the completed report whose recommendations are exactly the rule table's for the collected metrics |
| ContentScript.InpGuardNeverFires | content.js:569-572 | The `inp <= 0` replacement never changes the value: INP is always at least 0.1 s |
| ContentScript.ProgressAtPosition | content.js:537-592 | The k-th message, when it is a progress update, reports 10 + 20 k |
| ContentScript.ProgressRises | content.js:537-592 | The progress values sent rise strictly (10, 30, 50, 70, 90) |
| ContentScript.OneTerminalMessage | content.js:537-614 | Every analysis sends only progress updates and then exactly one terminal message, its last |
| ContentScript.NotNextStopsEarly | content.js:540-545 | A page without Next.js gets the first checkpoint and `{is_nextjs: false}`, and the run succeeds |
| ContentScript.FailureIffObserverThrows | content.js:565-619 | The run fails iff a Next.js page's LCP or CLS observer setup throws; a failure ends in `analysisError`, a success in a full report |
| ContentScript.ReportedAdviceFollowsRules | content.js:575-603 | The completed report carries the metrics and exactly the rule table's advice, with one router recommendation |
| ContentScript.ReportedMetricsInRange | content.js:565-583 | The reported score is in [0, 100] and the reported INP is at least 0.1 s |
| ContentScript.TwoAnalyses | content.js:522-621 | A client of the class, not code of the script: two analyses in a row both run to their expected outcome, so the in-progress guard never fires for sequential calls |
| Background.ProgressEntry | background.js:147-154 | The merged entry is in progress with the new progress, message and timestamp, and keeps every other key of the stored entry |
| Background.StartOutcome | background.js:53-88 | startAnalysis succeeds exactly when the ping and the start message both got through; otherwise it fails with the refresh message or the communication message |
| Background.ResolveTabId | background.js:116 | A popup request's own truthy tab id wins, else the sending tab's id; the id is falsy exactly when neither is there |
| Background.Handle | background.js:115-216 | Every popup request is answered: start with the start outcome and a fresh entry, getResults read-only, clear with whether an entry went. A content message is acknowledged iff a tab resolves, and then stores the matching status, progress, message, results or error with the current time; otherwise the store is unchanged and nothing is sent |
| Background.GetResults | background.js:104-112 | A falsy id gives the error reply, a missing entry gives `not_started`, otherwise the stored entry as it is |
| Background.TabStore.constructor | background.js:19 | The store starts empty |
| Background.TabStore.ClearTab | background.js:22-29 | It returns true iff the id is truthy and had an entry, and it removes exactly that entry |
| Background.TabStore.StartAnalysis | background.js:45-101 | It clears the tab, then stores the error entry for a failed ping or a failed start message, else the fresh in-progress entry; it returns the matching result |
| Background.TabStore.OnMessage | background.js:115-216 | One listener run changes the store and responds as the pure listener does |
| Background.TabStore.OnTabRemoved | background.js:219-221 | A removed tab with a truthy id has no entry afterwards |
| Background.ClearRemovesOnlyThatTab | background.js:22-29 | A truthy id's entry is gone, a falsy id changes nothing, and every other tab's entry is unchanged |
| Background.StartLeavesFreshEntry | background.js:45-88 | startAnalysis's own writes leave the tab one entry with no results or message from earlier. It is in progress (progress 0) iff ping and start message both succeeded; otherwise its error is the returned error. Every other tab keeps its entry unchanged |
| Background.HandleTouchesOnlyItsTabs | background.js:115-216 | A message changes at most the entries of the tabs it names |
| Background.GetResultsIsReadOnly | background.js:132-135 | Answering `getResults` never changes the store and returns the stored entry as it is |
| Background.UnaddressedReportsAreDropped | background.js:145-201 | Progress, completion and error messages with no resolvable tab leave the store unchanged and get no response |
| Background.ProgressRevertsCompleted | background.js:145-154 | A progress update turns a completed entry back to in progress and keeps its results |
| Background.TerminalMessagesReplaceEntry | background.js:172-201 | Completion and error messages replace the tab's entry wholesale |
| Background.FalsyTabEntryIsNeverCleared | background.js:22-65 | startAnalysis without a tab stores an entry under the falsy id, and clearTab can never remove it |
| Popup.FormatMetric | popup.js:80-122 | A missing value gives `'--'`; a value gets the empty class iff its kind is unknown. LCP is good iff below 2.5 s, poor iff at least 4 s; INP good below 200 ms, poor from 500 ms; CLS good below 0.1, poor from 0.25; the speed score good above 80, poor at 50 or below; moderate in between |
| Popup.BandsAreMonotone | popup.js:89-115 | A larger LCP, INP or CLS never rates better; a larger speed score never rates worse |
| Popup.DisplayMetrics | popup.js:167-194 | Every metric is shown with a band. INP, in seconds, is good iff below 0.2 s and poor iff at least 0.5 s after the conversion to milliseconds; the speed band follows the score; the marker is in [0, 100] and equals an in-range score |
| Popup.SpeedMarker | popup.js:191 | The marker position is the score clamped to [0, 100] |
| Popup.MarkerIsTheScore | popup.js:191 | For a reported analysis the marker sits exactly at the score |
| Popup.UnmeasuredInpIsModerate | popup.js:96-100 | An INP from the 200 ms timer fallback or the 250 ms unsupported fallback is shown as moderate, never good |
| Popup.Fields | background.js:104-112 | A getResults reply as the popup reads it: its status is one of the four the background can produce, `not_started` iff no entry exists, and a missing key reads as an empty error, progress 0 or no message |
| Popup.ShowResults | popup.js:244-250 | Only a Next.js result is displayed, as it is; anything else shows the not-Next view |
| Popup.CheckResults | popup.js:346-394 | A runtime error, then a missing response, then an `error` key are shown first. Then completed displays the results, in_progress polls with `progress \|\| 30` and `message \|\| 'Analyzing...'`, not_nextjs shows the not-Next view, error shows `message \|\| DefaultError`, not_started restarts, and any other status shows the unknown-status error |
| Popup.OnStartResponse | popup.js:321-342 | A start reply either shows an error or goes on to check the results |
| Popup.StartFailuresAreShown | popup.js:321-342 | The popup checks results iff the background started the analysis; otherwise it shows the background's refresh message |
| Popup.StoredRepliesDispatch | popup.js:362-392 | A getResults reply is never in the `not_nextjs` or unknown status. The not-Next view comes only from a completed entry without a Next.js result, and a restart only from a tab with no entry |
| Popup.ErrorKeyWins | popup.js:362-365 | A stored error is shown whatever the entry's status, even after a progress update reverted it to in progress |
| Popup.FreshEntryPollsAtThirty | popup.js:371-378 | The fresh entry (progress 0) shows the progress bar at 30 % with "Analyzing..." |
| Popup.ProgressUpdatesReachTheBar | popup.js:371-378 | A stored progress update of a tab without an error moves the popup's bar to that progress and shows its text (0 and an empty text read as 30 and "Analyzing...") |
| Popup.AnalysisOutcomeReachesPopup | popup.js:346-394 | Once the background has stored an analysis's last message, the popup shows the report, the not-Next view, or the error text |

## Left out

- DOM detection (`detectNextJS`, `detectConfiguration`, `detectPageStructure`, the `<img>` count) is not modelled. Its results are fields of `PageSnapshot`, and the element counts of the page-structure result are not part of the report.
- `JSON.parse` of `__NEXT_DATA__` and the `buildId` substring are not modelled; the build id is an optional string.
- Chrome messaging is not modelled: `chrome.runtime`/`chrome.tabs` transport, the popup forwarding through `chrome.tabs.query`, the ping handler and the content script's listener. `sendMessage` is an append to `outbox`.
- Real `PerformanceObserver`s and timers are not modelled. Each collector's callbacks are an event sequence followed by its timer.
- `ContentScript.ContentScript.RunAnalysis`: the events that arrive after a timer has fired are not modelled; they cannot change a settled promise.
- `ContentScript.ContentScript.RunAnalysis`: the three collectors run one after another, so each observes only during its own await, as in the code.
- `ContentScript.ContentScript.RunAnalysis`: overlapping runs are not modelled; each call runs to completion before the next message is handled. In the code, `cleanup` clears `isAnalyzing` before the first await, so a second `startAnalysis` that arrives during any await of a running analysis passes the guard. The model proves the flag is clear at every await, which is what lets this happen. What follows depends on the await the first run is at:
  - **A collector await** (`getLCP`, `getCLS`, or a `getINP` whose observer is running; content.js:560-566). The second run's `cleanup` (content.js:24-47) disconnects the first run's pending observer and clears its timer. That promise never settles, so the first run never sends its last message.
  - **A checkpoint await** (10, 30, 50, 70; content.js:537, 549, 553, 557). The first run has registered nothing yet, so the second `cleanup` removes nothing of it. Both runs go on to completion, and they interfere only through the shared `observers` and `timeouts` keys. One run's settling callback or timer can disconnect the other run's observer through `observers.lcp.disconnect()` (content.js:240, 253), and likewise for CLS and INP (content.js:318, 360, 382).
  - **The 90 checkpoint or the terminal await** (content.js:589, 603, 613, and 543 on a page without Next.js). The first run has nothing left pending and still sends its last message.
- `ContentScript.ContentScript.GetLcp`, `ContentScript.ContentScript.GetCls`: a throwing observer setup is modelled as the observer's construction throwing. Nothing is then registered; an `observe` call that throws after construction would leave the observer key set.
- `ContentScript.ContentScript.GetInp`: a throwing observer setup is modelled as the observer's construction throwing, so no observer key is registered. In the code, an `observe` call that throws after the constructor succeeded leaves `observers.inp` set (content.js:341-369). The 2000 ms timer is still armed after the setup `catch` (content.js:371-391); it does nothing when it fires, since `resolved` is already set.
- `Date.now()` is a parameter. JavaScript numbers are reals: IEEE rounding, `NaN` (including the `isNaN(inp)` test) and `toFixed` formatting are not modelled. `Math.round` is `floor(x + 0.5)`.
- `Background.TabStore.StartAnalysis` runs to completion in one step, so the listener runs that happen during its two awaits are not modelled. They are the normal order of events, not an occasional race. The content script answers the `startAnalysis` message only once `runAnalysis` has finished (content.js:633-644), and startAnalysis awaits that answer (background.js:77). Every `progressUpdate` of the analysis, and its final `analysisCompleted` or `analysisError`, is therefore stored before startAnalysis returns. After a successful start the tab's entry is normally the analysis's completed or error entry, not the in-progress entry at progress 0, so the popup's first `checkResults` usually sees that terminal entry. A send that rejects after the analysis has run (the tab navigated and the port closed, say) overwrites whatever the analysis stored with the "Could not communicate" error entry (background.js:80-87). The model states only what startAnalysis's own writes leave. Its outer `catch` is not modelled: `isContentScriptAvailable` and the inner `try` catch everything.
- Recommendation titles, descriptions and implementation texts are not modelled. A recommendation is its kind, its impact and the numbers shown in its description.
- `Advice.GenerateRecommendations` reads the resource entries again (content.js:403), separately from the read for the score (content.js:575). The model keeps the two reads as two fields of `PageSnapshot`.
- Popup DOM rendering is not modelled (`showView`, `displayNextJSConfig`, `createRecommendationElement`, `resetMetricsDisplay`), nor the popup's own listener for forwarded messages. The `checkResults` polling timer is the `Poll` action.
- The icon generators (`icons/generate_icons.js`, `create-icons.js`) are not part of this model.
