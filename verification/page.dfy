/**
 * Facts the content script reads from the page through DOM queries and the
 * Navigation Timing entry. The detection heuristics themselves are not part of
 * this model: their results are passed in as values of these types.
 */
module Page {
  import opened Wrappers

  /** The router reported by detectConfiguration / detectPageStructure.
      Both error spellings ('unknown' and 'Unknown') become `Unknown`:
      the code only ever compares the router with 'Pages'. */
  datatype Router = App | Pages | Unknown

  datatype Features = Features(imageOptimization: bool, fontOptimization: bool, i18n: bool)

  /** Result of detectConfiguration, passed through to the report unchanged. */
  datatype Config = Config(router: Router, buildId: Option<string>, features: Features)

  /** The raw `navigation` performance entry, in milliseconds since time origin. */
  datatype NavigationEntry = NavigationEntry(
    requestStart: real, responseStart: real,
    domContentLoadedEventEnd: real, loadEventEnd: real)

  datatype NavigationTiming = NavigationTiming(ttfb: real, domLoad: real, windowLoad: real)

  /** The order the browser records a page load's timestamps in. */
  predicate Chronological(n: NavigationEntry) {
    n.requestStart <= n.responseStart <= n.domContentLoadedEventEnd <= n.loadEventEnd
  }

  /** getNavigationTiming: no entry gives no timing; otherwise every duration is
      measured from the request start, so the three durations come in the
      order of the events they end at, and none of them depends on where the
      page load sits on the time line. */
  function GetNavigationTiming(nav: Option<NavigationEntry>): (t: Option<NavigationTiming>)
    ensures t.Some? <==> nav.Some?
    ensures t.Some? && Chronological(nav.value) ==> 0.0 <= t.value.ttfb <= t.value.domLoad <= t.value.windowLoad
  {
    match nav
    case None => None
    case Some(n) => Some(NavigationTiming(
      n.responseStart - n.requestStart,
      n.domContentLoadedEventEnd - n.requestStart,
      n.loadEventEnd - n.requestStart))
  }

  /** Shifting every timestamp of the entry by the same amount changes no duration. */
  lemma TimingIgnoresTimeOrigin(n: NavigationEntry, shift: real)
    ensures GetNavigationTiming(Some(NavigationEntry(n.requestStart + shift, n.responseStart + shift,
      n.domContentLoadedEventEnd + shift, n.loadEventEnd + shift))) == GetNavigationTiming(Some(n))
  {
  }
}
