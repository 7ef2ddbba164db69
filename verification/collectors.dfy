/**
 * The three promise-based metric collectors of the content script (getLCP,
 * getCLS, getINP). Each keeps closure state (`lcp` / `clsValue` / `inp` and a
 * `resolved` flag) that a PerformanceObserver callback and a timer callback
 * update. The browser is replaced by an event sequence: each `...Entries`
 * event is one observer callback carrying the entries delivered to it (a
 * callback sees only the entries reported since the previous one) together
 * with `document.readyState === 'complete'` at that moment; a `...Timeout`
 * event is the timer firing. `settled` records every value passed to
 * `resolve`, so "the promise is resolved at most once" is `|settled| <= 1`.
 *
 * For each collector: a state datatype, the step function of the callbacks,
 * a class whose methods are the callbacks, and lemmas characterising the run.
 */
module Collectors {
  import opened Wrappers
  import opened Page

  // ===========================================================================
  // Largest Contentful Paint

  datatype LcpEntry = LcpEntry(startTime: real)

  datatype LcpEvent =
    | LcpEntries(entries: seq<LcpEntry>, documentComplete: bool)
    | LcpTimeout(navigation: Option<NavigationEntry>)

  datatype LcpState = LcpState(lcp: real, resolved: bool, observing: bool, settled: seq<real>)

  /** State right after getLCP has started observing and armed its timer. */
  const LcpInitial := LcpState(0.0, false, true, [])

  /** The timer's value: DOM-load time plus 0.2 s, or 3.0 s without navigation timing. */
  function LcpFallback(navigation: Option<NavigationEntry>): real {
    var timing := GetNavigationTiming(navigation);
    if timing.Some? then timing.value.domLoad / 1000.0 + 0.2 else 3.0
  }

  function LcpStep(s: LcpState, e: LcpEvent): LcpState {
    match e
    case LcpEntries(entries, complete) =>
      if |entries| > 0 then
        var lcp := entries[|entries| - 1].startTime / 1000.0;
        if !s.resolved && complete then
          LcpState(lcp, true, false, s.settled + [lcp])
        else
          s.(lcp := lcp)
      else s
    case LcpTimeout(navigation) =>
      if !s.resolved then s.(resolved := true, observing := false, settled := s.settled + [LcpFallback(navigation)])
      else s
  }

  function LcpRun(events: seq<LcpEvent>): LcpState {
    if events == [] then LcpInitial
    else LcpStep(LcpRun(events[..|events| - 1]), events[|events| - 1])
  }

  /** The events that settle an unresolved collector. */
  predicate LcpResolves(e: LcpEvent) {
    match e
    case LcpEntries(entries, complete) => |entries| > 0 && complete
    case LcpTimeout(_) => true
  }

  /** The value such an event settles with. */
  function LcpValue(e: LcpEvent): real
    requires LcpResolves(e)
  {
    match e
    case LcpEntries(entries, _) => entries[|entries| - 1].startTime / 1000.0
    case LcpTimeout(navigation) => LcpFallback(navigation)
  }

  /** i is the first event that can settle the collector. */
  ghost predicate LcpFirstResolving(events: seq<LcpEvent>, i: int) {
    0 <= i < |events| && LcpResolves(events[i]) && forall j | 0 <= j < i :: !LcpResolves(events[j])
  }

  /** Single resolution: the promise is settled at most once, and the
      observer is disconnected exactly when it has been. */
  lemma {:induction false} LcpSettlesAtMostOnce(events: seq<LcpEvent>)
    ensures |LcpRun(events).settled| <= 1
    ensures LcpRun(events).resolved <==> |LcpRun(events).settled| == 1
    ensures LcpRun(events).observing <==> !LcpRun(events).resolved
  {
    if events != [] {
      LcpSettlesAtMostOnce(events[..|events| - 1]);
    }
  }

  lemma LcpStepPending(s: LcpState, e: LcpEvent)
    requires s.resolved <==> |s.settled| == 1
    ensures LcpStep(s, e).settled == [] <==> s.settled == [] && !LcpResolves(e)
  {
  }

  /** No event of the sequence can settle the LCP promise. */
  ghost predicate LcpNoneResolves(events: seq<LcpEvent>) {
    forall i | 0 <= i < |events| :: !LcpResolves(events[i])
  }

  lemma LcpNoneResolvesSnoc(init: seq<LcpEvent>, last: LcpEvent)
    ensures LcpNoneResolves(init + [last]) <==> LcpNoneResolves(init) && !LcpResolves(last)
  {
    var events := init + [last];
    if LcpNoneResolves(init) && !LcpResolves(last) {
      forall i | 0 <= i < |events| ensures !LcpResolves(events[i]) {
        if i < |init| { assert events[i] == init[i]; }
      }
    }
    if LcpNoneResolves(events) {
      forall i | 0 <= i < |init| ensures !LcpResolves(init[i]) {
        assert events[i] == init[i];
      }
      assert events[|init|] == last;
    }
  }

  /** The promise stays pending (and the observer connected) while no event
      that can settle it has arrived. */
  lemma {:induction false} LcpPendingUntilResolving(events: seq<LcpEvent>)
    ensures LcpRun(events).settled == [] <==> LcpNoneResolves(events)
  {
    if events != [] {
      var init := events[..|events| - 1];
      var last := events[|events| - 1];
      LcpPendingUntilResolving(init);
      LcpSettlesAtMostOnce(init);
      LcpStepPending(LcpRun(init), last);
      assert events == init + [last];
      LcpNoneResolvesSnoc(init, last);
    }
  }

  /** The promise settles with the value of the first event that can settle it. */
  lemma {:induction false} LcpSettledAtFirstResolving(events: seq<LcpEvent>, i: int)
    requires LcpFirstResolving(events, i)
    ensures LcpRun(events).settled == [LcpValue(events[i])]
  {
    var init := events[..|events| - 1];
    LcpSettlesAtMostOnce(init);
    if i < |init| {
      assert LcpFirstResolving(init, i);
      LcpSettledAtFirstResolving(init, i);
    } else {
      assert forall j | 0 <= j < |init| :: init[j] == events[j];
      LcpPendingUntilResolving(init);
    }
  }

  /** Once settled, no later observer or timer callback changes the outcome. */
  lemma {:induction false} LcpSettledIsFinal(events: seq<LcpEvent>, later: seq<LcpEvent>)
    requires LcpRun(events).resolved
    ensures LcpRun(events + later) == LcpRun(events).(lcp := LcpRun(events + later).lcp)
  {
    if later != [] {
      var init := later[..|later| - 1];
      assert (events + later)[..|events + later| - 1] == events + init;
      LcpSettledIsFinal(events, init);
    } else {
      assert events + later == events;
    }
  }

  /** When the timer fires after callbacks that never saw a complete document
      with entries, LCP is the navigation-timing fallback, whatever entries were seen. */
  lemma LcpTimeoutValue(events: seq<LcpEvent>, navigation: Option<NavigationEntry>)
    requires LcpNoneResolves(events)
    ensures LcpRun(events + [LcpTimeout(navigation)]).settled == [LcpFallback(navigation)]
    ensures navigation.Some? ==>
      LcpRun(events + [LcpTimeout(navigation)]).settled ==
        [(navigation.value.domContentLoadedEventEnd - navigation.value.requestStart) / 1000.0 + 0.2]
    ensures navigation.None? ==> LcpRun(events + [LcpTimeout(navigation)]).settled == [3.0]
  {
    var all := events + [LcpTimeout(navigation)];
    assert all[..|all| - 1] == events;
    LcpSettlesAtMostOnce(events);
    LcpPendingUntilResolving(events);
  }

  /** The value getLCP's promise takes when the timer fires after `events`. */
  function LcpPromise(events: seq<LcpEvent>, navigation: Option<NavigationEntry>): (v: real)
    ensures LcpRun(events + [LcpTimeout(navigation)]).settled == [v]
  {
    var all := events + [LcpTimeout(navigation)];
    assert all[..|all| - 1] == events;
    LcpSettlesAtMostOnce(events);
    LcpSettlesAtMostOnce(all);
    LcpRun(all).settled[0]
  }

  /** The closure of getLCP: `lcp` and `resolved`, plus the observer's state and
      the values passed to `resolve`. */
  class LcpCollector {
    var lcp: real
    var resolved: bool
    var observing: bool
    var settled: seq<real>

    function State(): LcpState
      reads this
    {
      LcpState(lcp, resolved, observing, settled)
    }

    /** Lines 227-250: start observing and arm the timer. */
    constructor ()
      ensures State() == LcpInitial
    {
      lcp, resolved, observing, settled := 0.0, false, true, [];
    }

    /** The observer callback. */
    method OnEntries(entries: seq<LcpEntry>, documentComplete: bool)
      modifies this
      ensures State() == LcpStep(old(State()), LcpEntries(entries, documentComplete))
    {
      if |entries| > 0 {
        var latest := entries[|entries| - 1];
        lcp := latest.startTime / 1000.0;
        if !resolved && documentComplete {
          resolved := true;
          observing := false;
          settled := settled + [lcp];
        }
      }
    }

    /** The 5000 ms timer callback; `navigation` is the entry getNavigationTiming reads. */
    method OnTimeout(navigation: Option<NavigationEntry>)
      modifies this
      ensures State() == LcpStep(old(State()), LcpTimeout(navigation))
    {
      if !resolved {
        resolved := true;
        observing := false;
        var timing := GetNavigationTiming(navigation);
        var fallback := if timing.Some? then timing.value.domLoad / 1000.0 + 0.2 else 3.0;
        settled := settled + [fallback];
      }
    }
  }

  // ===========================================================================
  // Cumulative Layout Shift

  datatype LayoutShift = LayoutShift(value: real, hadRecentInput: bool)

  datatype ClsEvent = ClsEntries(entries: seq<LayoutShift>) | ClsTimeout

  datatype ClsState = ClsState(clsValue: real, resolved: bool, observing: bool, settled: seq<real>)

  const ClsInitial := ClsState(0.0, false, true, [])

  /** Sum of the shifts not caused by recent input, in order. */
  function ShiftSum(entries: seq<LayoutShift>): real {
    if entries == [] then 0.0
    else
      var last := entries[|entries| - 1];
      ShiftSum(entries[..|entries| - 1]) + (if !last.hadRecentInput then last.value else 0.0)
  }

  function ClsStep(s: ClsState, e: ClsEvent): ClsState {
    match e
    case ClsEntries(entries) => s.(clsValue := s.clsValue + ShiftSum(entries))
    case ClsTimeout =>
      if !s.resolved then s.(resolved := true, observing := false, settled := s.settled + [s.clsValue])
      else s
  }

  function ClsRun(events: seq<ClsEvent>): ClsState {
    if events == [] then ClsInitial
    else ClsStep(ClsRun(events[..|events| - 1]), events[|events| - 1])
  }

  /** Every qualifying shift reported to the observer, over all callbacks. */
  function ObservedShifts(events: seq<ClsEvent>): real {
    if events == [] then 0.0
    else
      var last := events[|events| - 1];
      ObservedShifts(events[..|events| - 1]) + (if last.ClsEntries? then ShiftSum(last.entries) else 0.0)
  }

  /** i is the first timer event. */
  ghost predicate ClsFirstTimeout(events: seq<ClsEvent>, i: int) {
    0 <= i < |events| && events[i] == ClsTimeout && ClsTimeout !in events[..i]
  }

  /** The running value is the sum of every qualifying shift reported so far. */
  lemma {:induction false} ClsValueIsObservedSum(events: seq<ClsEvent>)
    ensures ClsRun(events).clsValue == ObservedShifts(events)
  {
    if events != [] {
      ClsValueIsObservedSum(events[..|events| - 1]);
    }
  }

  /** At most one value is ever resolved, and the observer is disconnected exactly then. */
  lemma {:induction false} ClsSettlesAtMostOnce(events: seq<ClsEvent>)
    ensures |ClsRun(events).settled| <= 1
    ensures ClsRun(events).resolved <==> |ClsRun(events).settled| == 1
    ensures ClsRun(events).observing <==> !ClsRun(events).resolved
  {
    if events != [] {
      ClsSettlesAtMostOnce(events[..|events| - 1]);
    }
  }

  /** Only the timer settles CLS: the promise is pending until a timer event. */
  lemma {:induction false} ClsPendingUntilTimeout(events: seq<ClsEvent>)
    ensures ClsRun(events).settled == [] <==> ClsTimeout !in events
  {
    if events != [] {
      var init := events[..|events| - 1];
      var last := events[|events| - 1];
      ClsPendingUntilTimeout(init);
      ClsSettlesAtMostOnce(init);
      ClsStepPending(ClsRun(init), last);
      InInitOrLast(events, ClsTimeout);
    }
  }

  lemma InInitOrLast<T>(s: seq<T>, x: T)
    requires s != []
    ensures x in s <==> x in s[..|s| - 1] || x == s[|s| - 1]
  {
    if x in s[..|s| - 1] {
      var k :| 0 <= k < |s| - 1 && s[..|s| - 1][k] == x;
      assert s[k] == x;
    }
    if x in s && x != s[|s| - 1] {
      var k :| 0 <= k < |s| && s[k] == x;
      assert s[..|s| - 1][k] == x;
    }
  }

  lemma ClsStepPending(s: ClsState, e: ClsEvent)
    requires s.resolved <==> |s.settled| == 1
    ensures ClsStep(s, e).settled == [] <==> s.settled == [] && e != ClsTimeout
  {
  }

  /** CLS settles exactly once, at the first timer event, with the sum of the
      qualifying shifts reported before it. */
  lemma {:induction false} ClsSettledAtFirstTimeout(events: seq<ClsEvent>, i: int)
    requires ClsFirstTimeout(events, i)
    ensures ClsRun(events).settled == [ObservedShifts(events[..i])]
  {
    var init := events[..|events| - 1];
    ClsSettlesAtMostOnce(init);
    if i < |init| {
      assert init[..i] == events[..i];
      assert ClsFirstTimeout(init, i);
      ClsSettledAtFirstTimeout(init, i);
    } else {
      assert events[..i] == init;
      ClsPendingUntilTimeout(init);
      ClsValueIsObservedSum(init);
    }
  }

  /** Shifts flagged with recent input never count; the others all do. */
  lemma {:induction false} ShiftSumIgnoresInput(entries: seq<LayoutShift>)
    requires forall e <- entries :: e.hadRecentInput
    ensures ShiftSum(entries) == 0.0
  {
    if entries != [] {
      ShiftSumIgnoresInput(entries[..|entries| - 1]);
    }
  }

  function ClsPromise(events: seq<ClsEvent>): (v: real)
    ensures ClsRun(events + [ClsTimeout]).settled == [v]
  {
    var all := events + [ClsTimeout];
    assert all[..|all| - 1] == events;
    ClsPendingUntilTimeout(all);
    ClsSettlesAtMostOnce(all);
    ClsRun(all).settled[0]
  }

  class ClsCollector {
    var clsValue: real
    var resolved: bool
    var observing: bool
    var settled: seq<real>

    function State(): ClsState
      reads this
    {
      ClsState(clsValue, resolved, observing, settled)
    }

    constructor ()
      ensures State() == ClsInitial
    {
      clsValue, resolved, observing, settled := 0.0, false, true, [];
    }

    /** The observer callback: add every shift without recent input. */
    method OnEntries(entries: seq<LayoutShift>)
      modifies this
      ensures State() == ClsStep(old(State()), ClsEntries(entries))
    {
      var i := 0;
      ghost var start := clsValue;
      while i < |entries|
        invariant 0 <= i <= |entries|
        invariant clsValue == start + ShiftSum(entries[..i])
        invariant resolved == old(resolved) && observing == old(observing) && settled == old(settled)
      {
        assert entries[..i + 1][..i] == entries[..i] && entries[..i + 1][i] == entries[i];
        if !entries[i].hadRecentInput {
          clsValue := clsValue + entries[i].value;
        }
        i := i + 1;
      }
      assert entries[..i] == entries;
    }

    /** The 2000 ms timer callback. */
    method OnTimeout()
      modifies this
      ensures State() == ClsStep(old(State()), ClsTimeout)
    {
      if !resolved {
        resolved := true;
        observing := false;
        settled := settled + [clsValue];
      }
    }
  }

  // ===========================================================================
  // Interaction to Next Paint

  /** An `event` timing entry; an `interactionId` of 0 stands for a falsy one. */
  datatype EventEntry = EventEntry(interactionId: nat, duration: real)

  /** How getINP's setup went: no Event Timing API, the observer setup threw,
      or the observer is in place. */
  datatype InpSetup = NoEventTiming | SetupThrew | Observing

  datatype InpEvent = InpEntries(entries: seq<EventEntry>, documentComplete: bool) | InpTimeout

  datatype InpState = InpState(inp: real, resolved: bool, observing: bool, settled: seq<real>)

  /** The value used when the Event Timing API is missing or its setup throws (250 ms). */
  const InpUnsupported: real := 0.25

  /** The timer's floor (200 ms) and the observer path's floor (100 ms). */
  const InpTimeoutFloor: real := 0.2
  const InpObservedFloor: real := 0.1

  /** Lines 328-375: the state once the promise executor has returned. */
  function InpInitial(setup: InpSetup): InpState {
    match setup
    case NoEventTiming => InpState(0.0, true, false, [InpUnsupported])
    case SetupThrew => InpState(0.0, true, false, [InpUnsupported])
    case Observing => InpState(0.0, false, true, [])
  }

  /** `entries.filter(entry => entry.interactionId)`. */
  function Interactions(entries: seq<EventEntry>): (r: seq<EventEntry>)
    ensures |r| <= |entries|
  {
    if entries == [] then []
    else
      var init := entries[..|entries| - 1];
      var last := entries[|entries| - 1];
      if last.interactionId != 0 then Interactions(init) + [last] else Interactions(init)
  }

  /** The filter keeps exactly the entries with a truthy interactionId. */
  lemma {:induction false} InteractionsAreTheTruthyIds(entries: seq<EventEntry>)
    ensures forall e <- Interactions(entries) :: e.interactionId != 0 && e in entries
    ensures forall e <- entries :: e.interactionId != 0 ==> e in Interactions(entries)
  {
    if entries != [] {
      var init := entries[..|entries| - 1];
      var last := entries[|entries| - 1];
      InteractionsAreTheTruthyIds(init);
      assert entries == init + [last];
    }
  }

  ghost predicate DescendingByDuration(s: seq<EventEntry>) {
    forall i, j | 0 <= i < j < |s| :: s[i].duration >= s[j].duration
  }

  function MinReal(x: real, y: real): real { if x <= y then x else y }

  /** Insert `e` after every element at least as long: the stable position. */
  function InsertByDuration(s: seq<EventEntry>, e: EventEntry): (r: seq<EventEntry>)
    ensures |r| == |s| + 1
  {
    if s == [] then [e]
    else if s[|s| - 1].duration >= e.duration then s + [e]
    else InsertByDuration(s[..|s| - 1], e) + [s[|s| - 1]]
  }

  /** Insertion adds `e` and loses nothing. */
  lemma {:induction false} InsertAddsOne(s: seq<EventEntry>, e: EventEntry)
    ensures multiset(InsertByDuration(s, e)) == multiset(s) + multiset{e}
  {
    if s != [] && s[|s| - 1].duration < e.duration {
      var init := s[..|s| - 1];
      var last := s[|s| - 1];
      InsertAddsOne(init, e);
      assert s == init + [last];
    }
  }

  /** Insertion keeps the order, and nothing inserted is shorter than both `e`
      and the previously shortest entry. */
  lemma {:induction false} InsertKeepsDescending(s: seq<EventEntry>, e: EventEntry)
    requires DescendingByDuration(s)
    ensures DescendingByDuration(InsertByDuration(s, e))
    ensures s != [] ==> forall k | 0 <= k < |s| + 1 ::
      InsertByDuration(s, e)[k].duration >= MinReal(e.duration, s[|s| - 1].duration)
  {
    if s == [] {
    } else if s[|s| - 1].duration >= e.duration {
      AppendShortest(s, e);
    } else {
      var init := s[..|s| - 1];
      var last := s[|s| - 1];
      InsertKeepsDescending(init, e);
      var r' := InsertByDuration(init, e);
      AppendShortest(r', last);
    }
  }

  lemma AppendShortest(s: seq<EventEntry>, x: EventEntry)
    requires DescendingByDuration(s)
    requires s != [] ==> s[|s| - 1].duration >= x.duration
    ensures DescendingByDuration(s + [x])
    ensures forall k | 0 <= k < |s| + 1 :: (s + [x])[k].duration >= x.duration
  {
  }

  /** `.sort((a, b) => b.duration - a.duration)`: a stable sort, longest first. */
  function SortByDurationDesc(s: seq<EventEntry>): (r: seq<EventEntry>)
    ensures |r| == |s|
  {
    if s == [] then []
    else InsertByDuration(SortByDurationDesc(s[..|s| - 1]), s[|s| - 1])
  }

  /** The sort orders by descending duration and is a permutation. */
  lemma SortSorts(s: seq<EventEntry>)
    ensures DescendingByDuration(SortByDurationDesc(s))
    ensures multiset(SortByDurationDesc(s)) == multiset(s)
  {
    SortIsDescending(s);
    SortIsPermutation(s);
  }

  lemma {:induction false} SortIsDescending(s: seq<EventEntry>)
    ensures DescendingByDuration(SortByDurationDesc(s))
  {
    if s != [] {
      SortIsDescending(s[..|s| - 1]);
      InsertKeepsDescending(SortByDurationDesc(s[..|s| - 1]), s[|s| - 1]);
    }
  }

  lemma {:induction false} SortIsPermutation(s: seq<EventEntry>)
    ensures multiset(SortByDurationDesc(s)) == multiset(s)
  {
    if s != [] {
      var init := s[..|s| - 1];
      var last := s[|s| - 1];
      SortIsPermutation(init);
      InsertAddsOne(SortByDurationDesc(init), last);
      assert s == init + [last];
    }
  }

  /** `Math.min(Math.floor(n * 0.02), n - 1)`. */
  function PercentileIndex(n: nat): (k: nat)
    requires n > 0
    ensures k < n
    ensures n < 50 ==> k == 0
  {
    var p := ((n as real) * 0.02).Floor;
    if p < n - 1 then p else n - 1
  }

  /** The INP estimate of one callback's batch: none without interactions. */
  function BatchInp(entries: seq<EventEntry>): (r: Option<real>)
    ensures r.Some? <==> |Interactions(entries)| > 0
  {
    var sorted := SortByDurationDesc(Interactions(entries));
    if |sorted| > 0 then Some(sorted[PercentileIndex(|sorted|)].duration / 1000.0) else None
  }

  /** Fewer than 50 interactions: the estimate is the longest interaction. */
  lemma SmallBatchInpIsLongest(entries: seq<EventEntry>)
    requires 0 < |Interactions(entries)| < 50
    ensures BatchInp(entries).Some?
    ensures exists e <- Interactions(entries) :: BatchInp(entries).value == e.duration / 1000.0
    ensures forall e <- Interactions(entries) :: e.duration / 1000.0 <= BatchInp(entries).value
  {
    var q := Interactions(entries);
    LongestFirst(q);
    var longest := SortByDurationDesc(q)[0];
    var inp := BatchInp(entries).value;
    assert inp == longest.duration / 1000.0;
    assert longest in q;
    forall e <- q ensures e.duration / 1000.0 <= inp {
      assert e.duration <= longest.duration;
    }
  }

  /** After the descending sort, the first interaction is a longest one. */
  lemma LongestFirst(q: seq<EventEntry>)
    requires q != []
    ensures SortByDurationDesc(q)[0] in q
    ensures forall e <- q :: e.duration <= SortByDurationDesc(q)[0].duration
  {
    var sorted := SortByDurationDesc(q);
    SortSorts(q);
    assert sorted[0] in multiset(sorted);
    forall e <- q ensures e.duration <= sorted[0].duration {
      assert e in multiset(sorted);
      var k :| 0 <= k < |sorted| && sorted[k] == e;
    }
  }

  /** The estimate is always the duration of one of the interactions. */
  lemma BatchInpIsObserved(entries: seq<EventEntry>)
    requires BatchInp(entries).Some?
    ensures exists e <- Interactions(entries) :: BatchInp(entries).value == e.duration / 1000.0
  {
    var q := Interactions(entries);
    var sorted := SortByDurationDesc(q);
    SortSorts(q);
    var k := PercentileIndex(|sorted|);
    assert sorted[k] in multiset(sorted);
  }

  function InpStep(s: InpState, e: InpEvent): InpState {
    match e
    case InpEntries(entries, complete) =>
      if BatchInp(entries).None? then s
      else
        var inp := BatchInp(entries).value;
        if !s.resolved && complete && |Interactions(entries)| >= 5 then
          InpState(inp, true, false, s.settled + [if inp < InpObservedFloor then InpObservedFloor else inp])
        else s.(inp := inp)
    case InpTimeout =>
      if !s.resolved then
        s.(resolved := true, observing := false,
           settled := s.settled + [if s.inp < InpTimeoutFloor then InpTimeoutFloor else s.inp])
      else s
  }

  function InpRun(setup: InpSetup, events: seq<InpEvent>): InpState {
    if events == [] then InpInitial(setup)
    else InpStep(InpRun(setup, events[..|events| - 1]), events[|events| - 1])
  }

  /** The estimate of the last callback that carried interactions (0 if none). */
  function LatestInp(events: seq<InpEvent>): real {
    if events == [] then 0.0
    else
      var last := events[|events| - 1];
      if last.InpEntries? && BatchInp(last.entries).Some? then BatchInp(last.entries).value
      else LatestInp(events[..|events| - 1])
  }

  /** The events that settle an observing collector: a callback on a complete
      document with at least five interactions, or the timer. */
  predicate InpResolves(e: InpEvent) {
    match e
    case InpEntries(entries, complete) => complete && |Interactions(entries)| >= 5
    case InpTimeout => true
  }

  ghost predicate InpFirstResolving(events: seq<InpEvent>, i: int) {
    0 <= i < |events| && InpResolves(events[i]) && forall j | 0 <= j < i :: !InpResolves(events[j])
  }

  /** The closure's `inp` is the estimate of the last callback that carried interactions. */
  lemma {:induction false} InpValueIsLatest(setup: InpSetup, events: seq<InpEvent>)
    ensures InpRun(setup, events).inp == LatestInp(events)
  {
    if events != [] {
      InpValueIsLatest(setup, events[..|events| - 1]);
    }
  }

  /** At most one value is ever resolved, and the observer is disconnected once
      it is. Without the Event Timing API, or when the setup throws, the promise
      has settled with 250 ms before any event and nothing changes that. */
  lemma {:induction false} InpSettlesAtMostOnce(setup: InpSetup, events: seq<InpEvent>)
    ensures |InpRun(setup, events).settled| <= 1
    ensures InpRun(setup, events).resolved <==> |InpRun(setup, events).settled| == 1
    ensures InpRun(setup, events).observing <==> !InpRun(setup, events).resolved
    ensures setup != Observing ==> InpRun(setup, events).settled == [InpUnsupported]
  {
    if events != [] {
      InpSettlesAtMostOnce(setup, events[..|events| - 1]);
    }
  }

  lemma InpStepPending(s: InpState, e: InpEvent)
    requires s.resolved <==> |s.settled| == 1
    ensures InpStep(s, e).settled == [] <==> s.settled == [] && !InpResolves(e)
  {
  }

  /** No event of the sequence can settle the INP promise. */
  ghost predicate NoneResolves(events: seq<InpEvent>) {
    forall i | 0 <= i < |events| :: !InpResolves(events[i])
  }

  lemma NoneResolvesSnoc(init: seq<InpEvent>, last: InpEvent)
    ensures NoneResolves(init + [last]) <==> NoneResolves(init) && !InpResolves(last)
  {
    var events := init + [last];
    if NoneResolves(init) && !InpResolves(last) {
      forall i | 0 <= i < |events| ensures !InpResolves(events[i]) {
        if i < |init| { assert events[i] == init[i]; }
      }
    }
    if NoneResolves(events) {
      forall i | 0 <= i < |init| ensures !InpResolves(init[i]) {
        assert events[i] == init[i];
      }
      assert events[|init|] == last;
    }
  }

  /** With the observer in place, the promise is pending until a resolving event. */
  lemma {:induction false} InpPendingUntilResolving(events: seq<InpEvent>)
    ensures InpRun(Observing, events).settled == [] <==> NoneResolves(events)
  {
    if events != [] {
      var init := events[..|events| - 1];
      var last := events[|events| - 1];
      InpPendingUntilResolving(init);
      InpSettlesAtMostOnce(Observing, init);
      InpStepPending(InpRun(Observing, init), last);
      assert events == init + [last];
      NoneResolvesSnoc(init, last);
    }
  }

  /** With the observer in place, the promise settles at the first resolving
      event: a callback with its own estimate floored at 100 ms, the timer with
      the latest estimate floored at 200 ms. */
  lemma {:induction false} InpSettledAtFirstResolving(events: seq<InpEvent>, i: int)
    requires InpFirstResolving(events, i)
    ensures InpRun(Observing, events).settled == [InpSettleValue(events[..i], events[i])]
  {
    var init := events[..|events| - 1];
    InpSettlesAtMostOnce(Observing, init);
    if i < |init| {
      assert init[..i] == events[..i];
      assert InpFirstResolving(init, i);
      InpSettledAtFirstResolving(init, i);
    } else {
      assert events[..i] == init;
      assert forall j | 0 <= j < |init| :: init[j] == events[j];
      InpPendingUntilResolving(init);
      InpValueIsLatest(Observing, init);
    }
  }

  /** The value a resolving event settles with, after the events `before` it. */
  function InpSettleValue(before: seq<InpEvent>, e: InpEvent): (v: real)
    requires InpResolves(e)
    ensures v >= InpObservedFloor
    ensures e.InpTimeout? ==> v >= InpTimeoutFloor
  {
    match e
    case InpEntries(entries, _) =>
      var inp := BatchInp(entries).value;
      if inp < InpObservedFloor then InpObservedFloor else inp
    case InpTimeout =>
      var inp := LatestInp(before);
      if inp < InpTimeoutFloor then InpTimeoutFloor else inp
  }

  /** Every value getINP resolves is at least 100 ms. */
  lemma InpSettledFloor(setup: InpSetup, events: seq<InpEvent>)
    ensures forall v <- InpRun(setup, events).settled :: v >= InpObservedFloor
  {
    InpSettlesAtMostOnce(setup, events);
    if setup == Observing && InpRun(setup, events).settled != [] {
      InpPendingUntilResolving(events);
      var i :| 0 <= i < |events| && InpResolves(events[i]);
      var k := FirstInpResolving(events, i);
      InpSettledAtFirstResolving(events, k);
    }
  }

  /** The least index of a resolving event, given one. */
  lemma {:induction false} FirstInpResolving(events: seq<InpEvent>, i: int) returns (k: int)
    requires 0 <= i < |events| && InpResolves(events[i])
    ensures InpFirstResolving(events, k) && k <= i
    decreases i
  {
    if exists j | 0 <= j < i :: InpResolves(events[j]) {
      var j :| 0 <= j < i && InpResolves(events[j]);
      k := FirstInpResolving(events, j);
    } else {
      k := i;
    }
  }

  /** With no interaction ever reported, the timer settles exactly 200 ms. */
  lemma {:induction false} InpNoInteractionsFallback(events: seq<InpEvent>)
    requires forall i | 0 <= i < |events| :: events[i].InpEntries? && Interactions(events[i].entries) == []
    ensures InpRun(Observing, events + [InpTimeout]).settled == [InpTimeoutFloor]
  {
    var all := events + [InpTimeout];
    assert all[..|all| - 1] == events;
    forall i | 0 <= i < |events| ensures !InpResolves(events[i]) {
      assert |Interactions(events[i].entries)| == 0;
    }
    InpPendingUntilResolving(events);
    InpSettlesAtMostOnce(Observing, events);
    InpValueIsLatest(Observing, events);
    LatestInpWithoutInteractions(events);
  }

  lemma {:induction false} LatestInpWithoutInteractions(events: seq<InpEvent>)
    requires forall i | 0 <= i < |events| :: events[i].InpEntries? && Interactions(events[i].entries) == []
    ensures LatestInp(events) == 0.0
  {
    if events != [] {
      LatestInpWithoutInteractions(events[..|events| - 1]);
    }
  }

  function InpPromise(setup: InpSetup, events: seq<InpEvent>): (v: real)
    ensures InpRun(setup, events + [InpTimeout]).settled == [v]
    ensures v >= InpObservedFloor
  {
    var all := events + [InpTimeout];
    assert all[..|all| - 1] == events;
    InpSettlesAtMostOnce(setup, events);
    InpSettlesAtMostOnce(setup, all);
    InpSettledFloor(setup, all);
    assert InpRun(setup, all).settled[0] in InpRun(setup, all).settled;
    InpRun(setup, all).settled[0]
  }

  class InpCollector {
    var inp: real
    var resolved: bool
    var observing: bool
    var settled: seq<real>

    function State(): InpState
      reads this
    {
      InpState(inp, resolved, observing, settled)
    }

    /** Lines 328-375: the API check, the observer setup and its catch. */
    constructor (setup: InpSetup)
      ensures State() == InpInitial(setup)
    {
      inp, resolved, observing, settled := 0.0, false, false, [];
      if setup == NoEventTiming {
        // No Event Timing API: resolve at once and arm no timer.
        resolved := true;
        settled := settled + [250.0 / 1000.0];
      } else if setup == SetupThrew {
        // The catch: resolve at once; the timer is still armed.
        resolved := true;
        settled := settled + [250.0 / 1000.0];
      } else {
        observing := true;
      }
    }

    /** The observer callback: estimate from this callback's interactions. */
    method OnEntries(entries: seq<EventEntry>, documentComplete: bool)
      modifies this
      ensures State() == InpStep(old(State()), InpEntries(entries, documentComplete))
    {
      if |entries| > 0 {
        var sorted := SortByDurationDesc(Interactions(entries));
        if |sorted| > 0 {
          var percentileIndex := ((|sorted| as real) * 0.02).Floor;
          var inpEntry := sorted[if percentileIndex < |sorted| - 1 then percentileIndex else |sorted| - 1];
          inp := inpEntry.duration / 1000.0;
          if !resolved && documentComplete && |sorted| >= 5 {
            resolved := true;
            observing := false;
            settled := settled + [if inp < 0.1 then 0.1 else inp];
          }
        }
      } else {
        assert Interactions(entries) == [];
      }
    }

    /** The 2000 ms timer callback. */
    method OnTimeout()
      modifies this
      ensures State() == InpStep(old(State()), InpTimeout)
    {
      if !resolved {
        resolved := true;
        observing := false;
        settled := settled + [if inp < 200.0 / 1000.0 then 200.0 / 1000.0 else inp];
      }
    }
  }
}
