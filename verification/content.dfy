/**
 * The controller of the content script: the module-level state (`isAnalyzing`,
 * the `observers` and `timeouts` maps), `cleanup`, the three collectors as the
 * script drives them, and `runAnalysis`.
 *
 * The page is replaced by a `PageSnapshot`: the results of the DOM detection
 * functions, the event sequences each PerformanceObserver and timer would
 * deliver, and the resource entries read at each of the two places that read
 * them. `sendMessage` never throws (it catches its own errors), so it is an
 * append to `outbox`. Every `await` is a point where another message could
 * start a second analysis: the ghost counters `awaits` and `flaggedAwaits`
 * count the awaits and those at which `isAnalyzing` was set.
 */
module ContentScript {
  import opened Wrappers
  import opened Page
  import opened Resources
  import opened Collectors
  import opened Advice

  /** The keys of the `observers` and `timeouts` maps. */
  datatype Metric = LcpMetric | ClsMetric | InpMetric

  /** The payload of `analysisCompleted`: `{is_nextjs: false}` or the full result. */
  datatype Report =
    | NotNext
    | NextReport(metrics: Metrics, config: Config, routerType: Router, recommendations: seq<Recommendation>)

  /** The messages sent to the background script, in the order they are sent. */
  datatype Message =
    | ProgressUpdate(progress: nat, text: string)
    | AnalysisCompleted(report: Report)
    | AnalysisError(error: string)

  /** What `runAnalysis` returns: `{success: true}` or `{success: false, error}`. */
  datatype Outcome = Success | Failure(error: string)

  /** How a collector's promise settles. */
  datatype Settled = Resolved(value: real) | Rejected(message: string)

  /** Everything runAnalysis reads from the page. An observer error is the
      message of the exception thrown while getLCP / getCLS set up their
      observer ("" for an exception without a message). The event sequences
      are the observer callbacks delivered before each collector's one timer
      fires, which GetLcp and GetCls append; a timer event inside `lcpEvents`
      or `clsEvents` stands for that same timer firing earlier, and everything
      after it leaves the settled value alone (LcpSettledIsFinal,
      ClsSettlesAtMostOnce). */
  datatype PageSnapshot = PageSnapshot(
    isNextJs: bool,
    config: Config,
    routerType: Router,
    lcpObserverError: Option<string>,
    lcpEvents: seq<LcpEvent>,
    navigation: Option<NavigationEntry>,
    clsObserverError: Option<string>,
    clsEvents: seq<ClsEvent>,
    inpSetup: InpSetup,
    inpEvents: seq<InpEvent>,
    resourcesAtScore: seq<ResourceEntry>,
    resourcesAtAdvice: seq<ResourceEntry>,
    nonOptimizedImages: nat)

  const InProgressError := "Analysis already in progress"
  const UnknownError := "Unknown error during analysis"

  /** The checkpoints sent before the metrics are collected. */
  const Checkpoints: seq<Message> := [
    ProgressUpdate(10, "Checking for Next.js..."),
    ProgressUpdate(30, "Detecting configuration..."),
    ProgressUpdate(50, "Analyzing page structure..."),
    ProgressUpdate(70, "Measuring performance...")]

  const Generating := ProgressUpdate(90, "Generating recommendations...")

  // ---------------------------------------------------------------------------
  // What one analysis of a page produces

  /** The exception that ends the analysis early, if any: getLCP's before getCLS's. */
  function Failed(page: PageSnapshot): Option<string> {
    if page.lcpObserverError.Some? then page.lcpObserverError else page.clsObserverError
  }

  /** `error.message || 'Unknown error during analysis'`. */
  function ErrorText(message: string): (t: string)
    ensures t != ""
    ensures message != "" ==> t == message
  {
    if message == "" then UnknownError else message
  }

  /** The metrics object: the three settled values, with the guard that
      replaces a non-positive INP by 0.2, and the speed score. The guard never
      changes INP, since every settled INP is at least 0.1 s. */
  function PageMetrics(page: PageSnapshot): (m: Metrics)
    ensures m.inp == InpPromise(page.inpSetup, page.inpEvents) && m.inp >= InpObservedFloor
    ensures 0 <= m.speedScore <= 100
  {
    var inp := InpPromise(page.inpSetup, page.inpEvents);
    Metrics(
      LcpPromise(page.lcpEvents, page.navigation),
      ClsPromise(page.clsEvents),
      if inp <= 0.0 then 0.2 else inp,
      CalculateSpeedScore(GetResourceMetrics(page.resourcesAtScore), page.routerType))
  }

  /** The inputs of generateRecommendations. */
  function PageInputs(page: PageSnapshot): Inputs {
    Inputs(PageMetrics(page), page.routerType, GetResourceMetrics(page.resourcesAtAdvice), page.nonOptimizedImages)
  }

  /** The result object of a completed analysis of a Next.js page: the page's
      metrics, its configuration and router, and (ReportedAdviceFollowsRules)
      exactly the rule table's advice for them, in rule order. */
  ghost function FinalReport(page: PageSnapshot): (r: Report)
    ensures r.NextReport? && r.metrics == PageMetrics(page)
    ensures r.config == page.config && r.routerType == page.routerType
  {
    NextReport(PageMetrics(page), page.config, page.routerType, Rules(PageInputs(page), 11))
  }

  /** The messages one analysis sends, in order. */
  ghost function Trace(page: PageSnapshot): seq<Message> {
    if !page.isNextJs then [Checkpoints[0], AnalysisCompleted(NotNext)]
    else if Failed(page).Some? then Checkpoints + [AnalysisError(ErrorText(Failed(page).value))]
    else Checkpoints + [Generating, AnalysisCompleted(FinalReport(page))]
  }

  function ExpectedOutcome(page: PageSnapshot): Outcome {
    if page.isNextJs && Failed(page).Some? then Failure(Failed(page).value) else Success
  }

  /** The keys left in `observers` when the analysis returns. */
  function ObserversAfter(page: PageSnapshot): set<Metric> {
    if !page.isNextJs || page.lcpObserverError.Some? then {}
    else if page.clsObserverError.Some? then {LcpMetric}
    else {LcpMetric, ClsMetric} + (if page.inpSetup == Observing then {InpMetric} else {})
  }

  /** The keys left in `timeouts` when the analysis returns. */
  function TimeoutsAfter(page: PageSnapshot): set<Metric> {
    if !page.isNextJs || page.lcpObserverError.Some? then {}
    else if page.clsObserverError.Some? then {LcpMetric}
    else {LcpMetric, ClsMetric} + (if page.inpSetup != NoEventTiming then {InpMetric} else {})
  }

  // ---------------------------------------------------------------------------
  // The module-level state and the functions that change it

  class ContentScript {
    var isAnalyzing: bool
    var observers: set<Metric>
    var timeouts: set<Metric>
    var outbox: seq<Message>
    ghost var awaits: nat
    ghost var flaggedAwaits: nat

    /** The state when the script is injected. */
    constructor ()
      ensures !isAnalyzing && observers == {} && timeouts == {} && outbox == []
      ensures awaits == 0 && flaggedAwaits == 0
    {
      isAnalyzing, observers, timeouts, outbox := false, {}, {}, [];
      awaits, flaggedAwaits := 0, 0;
    }

    /** Disconnects every observer, clears every timer, empties both maps and
        resets the re-entrancy flag. */
    method Cleanup()
      modifies this
      ensures observers == {} && timeouts == {} && !isAnalyzing
      ensures outbox == old(outbox) && awaits == old(awaits) && flaggedAwaits == old(flaggedAwaits)
    {
      observers := {};
      timeouts := {};
      isAnalyzing := false;
    }

    /** `await sendMessage(action, data)`. */
    method SendMessage(m: Message)
      modifies this
      ensures outbox == old(outbox) + [m]
      ensures awaits == old(awaits) + 1
      ensures flaggedAwaits == old(flaggedAwaits) + (if isAnalyzing then 1 else 0)
      ensures isAnalyzing == old(isAnalyzing) && observers == old(observers) && timeouts == old(timeouts)
    {
      outbox := outbox + [m];
      awaits := awaits + 1;
      flaggedAwaits := flaggedAwaits + (if isAnalyzing then 1 else 0);
    }

    /** An `await` of a collector's promise. */
    ghost method Await()
      modifies this
      ensures awaits == old(awaits) + 1
      ensures flaggedAwaits == old(flaggedAwaits) + (if isAnalyzing then 1 else 0)
      ensures isAnalyzing == old(isAnalyzing) && observers == old(observers) && timeouts == old(timeouts)
      ensures outbox == old(outbox)
    {
      awaits := awaits + 1;
      flaggedAwaits := flaggedAwaits + (if isAnalyzing then 1 else 0);
    }

    /** getLCP: registers the observer and the 5000 ms timer, delivers the
        observer callbacks, then fires the timer. A throwing observer setup
        rejects the promise before anything is registered. */
    method GetLcp(setupError: Option<string>, events: seq<LcpEvent>, navigation: Option<NavigationEntry>)
      returns (result: Settled)
      modifies this
      ensures setupError.Some? ==> result == Rejected(setupError.value)
      ensures setupError.None? ==> result == Resolved(LcpPromise(events, navigation))
      ensures observers == old(observers) + (if setupError.None? then {LcpMetric} else {})
      ensures timeouts == old(timeouts) + (if setupError.None? then {LcpMetric} else {})
      ensures isAnalyzing == old(isAnalyzing) && outbox == old(outbox)
      ensures awaits == old(awaits) && flaggedAwaits == old(flaggedAwaits)
    {
      if setupError.Some? {
        return Rejected(setupError.value);
      }
      var c := new LcpCollector();
      observers := observers + {LcpMetric};
      timeouts := timeouts + {LcpMetric};
      var i := 0;
      while i < |events|
        invariant 0 <= i <= |events|
        invariant c.State() == LcpRun(events[..i])
        modifies c
      {
        assert events[..i + 1][..i] == events[..i];
        match events[i] {
          case LcpEntries(entries, complete) => c.OnEntries(entries, complete);
          case LcpTimeout(nav) => c.OnTimeout(nav);
        }
        i := i + 1;
      }
      assert events[..i] == events;
      c.OnTimeout(navigation);
      assert (events + [LcpTimeout(navigation)])[..|events|] == events;
      assert c.settled == [LcpPromise(events, navigation)];
      result := Resolved(c.settled[0]);
    }

    /** getCLS: registers the observer and the 2000 ms timer, delivers the
        observer callbacks, then fires the timer. */
    method GetCls(setupError: Option<string>, events: seq<ClsEvent>)
      returns (result: Settled)
      modifies this
      ensures setupError.Some? ==> result == Rejected(setupError.value)
      ensures setupError.None? ==> result == Resolved(ClsPromise(events))
      ensures observers == old(observers) + (if setupError.None? then {ClsMetric} else {})
      ensures timeouts == old(timeouts) + (if setupError.None? then {ClsMetric} else {})
      ensures isAnalyzing == old(isAnalyzing) && outbox == old(outbox)
      ensures awaits == old(awaits) && flaggedAwaits == old(flaggedAwaits)
    {
      if setupError.Some? {
        return Rejected(setupError.value);
      }
      var c := new ClsCollector();
      observers := observers + {ClsMetric};
      timeouts := timeouts + {ClsMetric};
      var i := 0;
      while i < |events|
        invariant 0 <= i <= |events|
        invariant c.State() == ClsRun(events[..i])
        modifies c
      {
        assert events[..i + 1][..i] == events[..i];
        match events[i] {
          case ClsEntries(entries) => c.OnEntries(entries);
          case ClsTimeout => c.OnTimeout();
        }
        i := i + 1;
      }
      assert events[..i] == events;
      c.OnTimeout();
      assert (events + [ClsTimeout])[..|events|] == events;
      assert c.settled == [ClsPromise(events)];
      result := Resolved(c.settled[0]);
    }

    /** getINP: without the Event Timing API it resolves 0.25 and registers
        nothing; when the observer setup throws it resolves 0.25 and still arms
        the timer; otherwise it observes, delivers the callbacks and fires the
        2000 ms timer. It never rejects. */
    method GetInp(setup: InpSetup, events: seq<InpEvent>) returns (inp: real)
      modifies this
      ensures inp == InpPromise(setup, events)
      ensures observers == old(observers) + (if setup == Observing then {InpMetric} else {})
      ensures timeouts == old(timeouts) + (if setup != NoEventTiming then {InpMetric} else {})
      ensures isAnalyzing == old(isAnalyzing) && outbox == old(outbox)
      ensures awaits == old(awaits) && flaggedAwaits == old(flaggedAwaits)
    {
      var c := new InpCollector(setup);
      if setup == Observing {
        observers := observers + {InpMetric};
        var i := 0;
        while i < |events|
          invariant 0 <= i <= |events|
          invariant c.State() == InpRun(Observing, events[..i])
          modifies c
        {
          assert events[..i + 1][..i] == events[..i];
          match events[i] {
            case InpEntries(entries, complete) => c.OnEntries(entries, complete);
            case InpTimeout => c.OnTimeout();
          }
          i := i + 1;
        }
        assert events[..i] == events;
      }
      if setup != NoEventTiming {
        timeouts := timeouts + {InpMetric};
        c.OnTimeout();
      }
      assert (events + [InpTimeout])[..|events|] == events;
      InpSettlesAtMostOnce(setup, events + [InpTimeout]);
      assert c.settled == [InpPromise(setup, events)];
      inp := c.settled[0];
    }

    /** runAnalysis. A call while the flag is set returns the in-progress
        error and changes nothing. Otherwise the analysis sends `Trace(page)`
        and returns with the flag cleared; at none of its awaits is the flag
        set, because `cleanup` has already cleared it. */
    method RunAnalysis(page: PageSnapshot) returns (outcome: Outcome)
      modifies this
      ensures old(isAnalyzing) ==> outcome == Failure(InProgressError)
      ensures old(isAnalyzing) ==>
        isAnalyzing && observers == old(observers) && timeouts == old(timeouts) && outbox == old(outbox) &&
        awaits == old(awaits) && flaggedAwaits == old(flaggedAwaits)
      ensures !old(isAnalyzing) ==> outcome == ExpectedOutcome(page)
      ensures !old(isAnalyzing) ==> outbox == old(outbox) + Trace(page)
      ensures !old(isAnalyzing) ==> !isAnalyzing
      ensures !old(isAnalyzing) ==> observers == ObserversAfter(page) && timeouts == TimeoutsAfter(page)
      ensures !old(isAnalyzing) ==> awaits > old(awaits) && flaggedAwaits == old(flaggedAwaits)
    {
      if isAnalyzing {
        return Failure(InProgressError);
      }
      isAnalyzing := true;
      Cleanup();
      SendMessage(Checkpoints[0]);
      if !page.isNextJs {
        SendMessage(AnalysisCompleted(NotNext));
        isAnalyzing := false;
        return Success;
      }
      outcome := AnalyzeNextPage(page);
    }

    /** runAnalysis after the first checkpoint, on a Next.js page. */
    method AnalyzeNextPage(page: PageSnapshot) returns (outcome: Outcome)
      requires page.isNextJs && !isAnalyzing && observers == {} && timeouts == {}
      modifies this
      ensures outcome == ExpectedOutcome(page)
      ensures outbox == old(outbox) + Trace(page)[1..]
      ensures !isAnalyzing
      ensures observers == ObserversAfter(page) && timeouts == TimeoutsAfter(page)
      ensures awaits > old(awaits) && flaggedAwaits == old(flaggedAwaits)
    {
      SendMessage(Checkpoints[1]);
      SendMessage(Checkpoints[2]);
      SendMessage(Checkpoints[3]);
      ghost var measuring := outbox;
      var failure, metrics := CollectMetrics(page);
      TraceAfterFirstCheckpoint(page);
      if failure.Some? {
        SendMessage(AnalysisError(ErrorText(failure.value)));
        isAnalyzing := false;
        assert outbox == measuring + [AnalysisError(ErrorText(failure.value))];
        return Failure(failure.value);
      }
      SendReport(page, metrics);
      isAnalyzing := false;
      return Success;
    }

    /** Steps 5 to 7 of a successful analysis: the 90 checkpoint, then the
        recommendations for the collected metrics in the completed report. */
    method SendReport(page: PageSnapshot, metrics: Metrics)
      requires metrics == PageMetrics(page) && !isAnalyzing
      modifies this
      ensures outbox == old(outbox) + [Generating, AnalysisCompleted(FinalReport(page))]
      ensures isAnalyzing == old(isAnalyzing) && observers == old(observers) && timeouts == old(timeouts)
      ensures awaits > old(awaits) && flaggedAwaits == old(flaggedAwaits)
    {
      SendMessage(Generating);
      var recommendations := GenerateRecommendations(
        metrics, page.routerType, page.resourcesAtAdvice, page.nonOptimizedImages);
      RulesAreAdvice(PageInputs(page));
      AdviceIsUnique(recommendations, Rules(PageInputs(page), 11), PageInputs(page));
      SendMessage(AnalysisCompleted(NextReport(metrics, page.config, page.routerType, recommendations)));
    }

    /** The awaits of getLCP, getCLS and getINP, the INP guard and the speed
        score. A rejected collector ends the collection with its message. */
    method CollectMetrics(page: PageSnapshot) returns (failure: Option<string>, metrics: Metrics)
      modifies this
      ensures failure == Failed(page)
      ensures failure.None? ==> metrics == PageMetrics(page)
      ensures observers == old(observers) + ObserversAfter(page.(isNextJs := true))
      ensures timeouts == old(timeouts) + TimeoutsAfter(page.(isNextJs := true))
      ensures isAnalyzing == old(isAnalyzing) && outbox == old(outbox)
      ensures awaits > old(awaits) && flaggedAwaits == old(flaggedAwaits) + (if isAnalyzing then awaits - old(awaits) else 0)
    {
      metrics := Metrics(0.0, 0.0, 0.0, 0);
      var lcp := GetLcp(page.lcpObserverError, page.lcpEvents, page.navigation);
      Await();
      if lcp.Rejected? {
        return Some(lcp.message), metrics;
      }
      var cls := GetCls(page.clsObserverError, page.clsEvents);
      Await();
      if cls.Rejected? {
        return Some(cls.message), metrics;
      }
      var inp := GetInp(page.inpSetup, page.inpEvents);
      Await();
      if inp <= 0.0 {
        inp := 0.2;
      }
      var resourceMetrics := GetResourceMetrics(page.resourcesAtScore);
      var speedScore := CalculateSpeedScore(resourceMetrics, page.routerType);
      metrics := Metrics(lcp.value, cls.value, inp, speedScore);
      failure := None;
    }
  }

  // ---------------------------------------------------------------------------
  // Properties of an analysis

  /** The guard in front of `inp` never fires: every settled INP is at least 0.1. */
  lemma InpGuardNeverFires(page: PageSnapshot)
    ensures PageMetrics(page).inp == InpPromise(page.inpSetup, page.inpEvents)
    ensures PageMetrics(page).inp >= InpObservedFloor
  {
  }

  /** What a Next.js page's analysis sends after its first checkpoint. */
  lemma TraceAfterFirstCheckpoint(page: PageSnapshot)
    requires page.isNextJs
    ensures Trace(page)[1..] == [Checkpoints[1], Checkpoints[2], Checkpoints[3]] +
      (if Failed(page).Some? then [AnalysisError(ErrorText(Failed(page).value))]
       else [Generating, AnalysisCompleted(FinalReport(page))])
  {
  }

  /** The progress values an analysis sends rise strictly: 10, 30, 50, 70, 90. */
  lemma ProgressRises(page: PageSnapshot, i: nat, j: nat)
    requires i < j < |Trace(page)|
    requires Trace(page)[i].ProgressUpdate? && Trace(page)[j].ProgressUpdate?
    ensures Trace(page)[i].progress < Trace(page)[j].progress
  {
    ProgressAtPosition(page, i);
    ProgressAtPosition(page, j);
  }

  /** The k-th message, when it is a progress update, reports 10 + 20 k. */
  lemma ProgressAtPosition(page: PageSnapshot, k: nat)
    requires k < |Trace(page)| && Trace(page)[k].ProgressUpdate?
    ensures Trace(page)[k].progress == 10 + 20 * k
  {
    if page.isNextJs {
      TraceAfterFirstCheckpoint(page);
    }
  }

  /** Every analysis ends with exactly one terminal message, its last one:
      `analysisCompleted` or `analysisError`; every message before it is a
      progress update. */
  lemma OneTerminalMessage(page: PageSnapshot)
    ensures |Trace(page)| >= 2
    ensures !Trace(page)[|Trace(page)| - 1].ProgressUpdate?
    ensures forall i | 0 <= i < |Trace(page)| - 1 :: Trace(page)[i].ProgressUpdate?
  {
  }

  /** A page without Next.js gets one checkpoint and `{is_nextjs: false}`,
      and the analysis succeeds. */
  lemma NotNextStopsEarly(page: PageSnapshot)
    requires !page.isNextJs
    ensures Trace(page) == [ProgressUpdate(10, "Checking for Next.js..."), AnalysisCompleted(NotNext)]
    ensures ExpectedOutcome(page) == Success
  {
  }

  /** The analysis fails exactly when a Next.js page's LCP or CLS observer
      setup throws, and then it reports the error instead of a result. */
  lemma FailureIffObserverThrows(page: PageSnapshot)
    ensures ExpectedOutcome(page).Failure? <==>
      page.isNextJs && (page.lcpObserverError.Some? || page.clsObserverError.Some?)
    ensures ExpectedOutcome(page).Failure? ==> Trace(page)[|Trace(page)| - 1].AnalysisError?
    ensures ExpectedOutcome(page).Success? && page.isNextJs ==>
      Trace(page)[|Trace(page)| - 1].AnalysisCompleted? && Trace(page)[|Trace(page)| - 1].report.NextReport?
  {
  }

  /** The reported recommendations are exactly the rule table's advice for the
      reported metrics, and they contain exactly one router recommendation. */
  lemma ReportedAdviceFollowsRules(page: PageSnapshot)
    requires page.isNextJs && Failed(page).None?
    ensures var r := Trace(page)[|Trace(page)| - 1].report;
      r.NextReport? && r.metrics == PageMetrics(page) &&
      IsAdviceFor(r.recommendations, PageInputs(page)) &&
      (UpgradeToAppRouter in r.recommendations) != (OptimizeAppRouterUsage in r.recommendations)
  {
    var x := PageInputs(page);
    RulesAreAdvice(x);
    OneRouterRecommendation(Rules(x, 11), x);
  }

  /** The reported speed score is in [0, 100] and the reported INP is at
      least 0.1 s. */
  lemma ReportedMetricsInRange(page: PageSnapshot)
    ensures 0 <= PageMetrics(page).speedScore <= 100
    ensures PageMetrics(page).inp >= 0.1
  {
  }

  /** No code of the script corresponds to this method: it only exercises
      the class contract. An analysis started on a fresh script finds the flag
      clear and leaves it clear, so the in-progress guard never fires for calls
      that arrive after one another. */
  method TwoAnalyses(first: PageSnapshot, second: PageSnapshot) returns (a: Outcome, b: Outcome)
    ensures a == ExpectedOutcome(first) && b == ExpectedOutcome(second)
  {
    var script := new ContentScript();
    a := script.RunAnalysis(first);
    b := script.RunAnalysis(second);
  }
}
