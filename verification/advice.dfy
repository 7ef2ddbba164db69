/**
 * generateRecommendations of the content script: a fixed list of rules, each
 * appending at most one technical recommendation, evaluated in order against
 * the collected metrics, the router and the resource totals.
 *
 * The contract is a declarative table (`Fires`: which recommendation each rule
 * produces on which inputs) plus the rule order (`Rank`); the lemmas show that
 * these two determine the list, and derive the adjacency facts of the rule list.
 */
module Advice {
  import opened Page
  import opened Resources

  /** The metrics object built by runAnalysis; LCP and INP in seconds. */
  datatype Metrics = Metrics(lcp: real, cls: real, inp: real, speedScore: int)

  datatype Impact = High | Medium

  /** One technical recommendation. The numbers the source interpolates into
      the description are kept; the fixed description and implementation
      texts are not. */
  datatype Recommendation =
    | ReduceJsBundle(jsKB: int, jsResourceCount: nat)
    | ImplementServerComponents
    | OptimizeDataFetching
    | ConfigureSwcMinifier
    | OptimizeLcp
    | ImplementFontOptimization
    | ReduceLayoutShifts
    | UpgradeToAppRouter
    | OptimizeAppRouterUsage
    | UseImageOptimization(nonOptimizedImages: nat)
    | ReducePageSize(totalKB: int)

  function ImpactOf(r: Recommendation): Impact {
    match r
    case ReduceJsBundle(_, _) => High
    case ImplementServerComponents => High
    case OptimizeDataFetching => High
    case OptimizeLcp => High
    case ReducePageSize(_) => High
    case _ => Medium
  }

  /** Position of the rule that produces `r` in the rule list. */
  function Rank(r: Recommendation): nat {
    match r
    case ReduceJsBundle(_, _) => 0
    case ImplementServerComponents => 1
    case OptimizeDataFetching => 2
    case ConfigureSwcMinifier => 3
    case OptimizeLcp => 4
    case ImplementFontOptimization => 5
    case ReduceLayoutShifts => 6
    case UpgradeToAppRouter => 7
    case OptimizeAppRouterUsage => 8
    case UseImageOptimization(_) => 9
    case ReducePageSize(_) => 10
  }

  /** `Math.round(bytes / 1024)`, in integers (see `RoundKBIsRound`). */
  function RoundKB(bytes: nat): int {
    (bytes + 512) / 1024
  }

  lemma RoundKBIsRound(bytes: nat)
    ensures RoundKB(bytes) == Round(bytes as real / 1024.0)
  {
    var r := RoundKB(bytes);
    assert r * 1024 <= bytes + 512 < r * 1024 + 1024;
    assert (r as real) - 0.5 <= bytes as real / 1024.0 < (r as real) + 0.5;
  }

  /** The inputs the rules read. */
  datatype Inputs = Inputs(metrics: Metrics, router: Router, resources: ResourceMetrics, nonOptimizedImages: nat)

  predicate LowScore(x: Inputs) { x.metrics.speedScore < 60 }

  predicate ScriptHeavy(x: Inputs) {
    x.resources.jsResourceCount > 10 || x.resources.jsBytes > 500 * 1024
  }

  /** The rule table: does the list contain `r` for these inputs? */
  predicate Fires(r: Recommendation, x: Inputs) {
    match r
    case ReduceJsBundle(kb, n) =>
      LowScore(x) && ScriptHeavy(x) && kb == RoundKB(x.resources.jsBytes) && n == x.resources.jsResourceCount
    case ImplementServerComponents => LowScore(x) && ScriptHeavy(x)
    case OptimizeDataFetching => LowScore(x)
    case ConfigureSwcMinifier => LowScore(x) && x.router == Pages
    case OptimizeLcp => x.metrics.lcp > 2.5
    case ImplementFontOptimization => x.metrics.lcp > 4.0
    case ReduceLayoutShifts => x.metrics.cls > 0.1
    case UpgradeToAppRouter => x.router == Pages
    case OptimizeAppRouterUsage => x.router != Pages
    case UseImageOptimization(n) => x.nonOptimizedImages > 2 && n == x.nonOptimizedImages
    case ReducePageSize(kb) => x.resources.totalBytes > 1000000 && kb == RoundKB(x.resources.totalBytes)
  }

  /** Entries appear in rule order, so no rule contributes twice. */
  ghost predicate InRuleOrder(rs: seq<Recommendation>) {
    forall i, j | 0 <= i < j < |rs| :: Rank(rs[i]) < Rank(rs[j])
  }

  /** `rs` is the advice for `x`: exactly the recommendations the table fires, in rule order. */
  ghost predicate IsAdviceFor(rs: seq<Recommendation>, x: Inputs) {
    InRuleOrder(rs) && forall r :: r in rs <==> Fires(r, x)
  }

  /** generateRecommendations: the rules are evaluated in order and each
      appends at most one entry. The resource totals are those of the
      `resources` entries read when the rules run; `nonOptimizedImages` is the
      number of `<img>` elements without `data-nimg`. */
  method GenerateRecommendations(metrics: Metrics, router: Router, resources: seq<ResourceEntry>,
                                 nonOptimizedImages: nat)
    returns (technical: seq<Recommendation>)
    ensures IsAdviceFor(technical, Inputs(metrics, router, GetResourceMetrics(resources), nonOptimizedImages))
  {
    var resourceMetrics := GetResourceMetrics(resources);
    ghost var x := Inputs(metrics, router, resourceMetrics, nonOptimizedImages);
    technical := [];

    if metrics.speedScore < 60 {
      if resourceMetrics.jsResourceCount > 10 || resourceMetrics.jsBytes > 500 * 1024 {
        technical := technical + [ReduceJsBundle(RoundKB(resourceMetrics.jsBytes), resourceMetrics.jsResourceCount)];
        technical := technical + [ImplementServerComponents];
      }
      technical := technical + [OptimizeDataFetching];
      if router == Pages {
        technical := technical + [ConfigureSwcMinifier];
      }
    }
    ghost var score := technical;
    assert score == Step(Step(Step(Step([], 0, x), 1, x), 2, x), 3, x);

    if metrics.lcp > 2.5 {
      technical := technical + [OptimizeLcp];
      if metrics.lcp > 4.0 {
        technical := technical + [ImplementFontOptimization];
      }
    }
    ghost var lcp := technical;
    assert lcp == Step(Step(score, 4, x), 5, x);

    if metrics.cls > 0.1 {
      technical := technical + [ReduceLayoutShifts];
    }
    ghost var shifts := technical;
    assert shifts == Step(lcp, 6, x);

    if router == Pages {
      technical := technical + [UpgradeToAppRouter];
    } else {
      technical := technical + [OptimizeAppRouterUsage];
    }
    ghost var routing := technical;
    assert routing == Step(Step(shifts, 7, x), 8, x);

    if nonOptimizedImages > 2 {
      technical := technical + [UseImageOptimization(nonOptimizedImages)];
    }
    ghost var images := technical;
    assert images == Step(routing, 9, x);

    if resourceMetrics.totalBytes > 1000000 {
      technical := technical + [ReducePageSize(RoundKB(resourceMetrics.totalBytes))];
    }
    assert technical == Step(images, 10, x);

    GroupsAreRules(score, lcp, shifts, routing, images, technical, x);
    RulesAreAdvice(x);
  }

  /** Whether rule `k` of the rule list appends its entry. */
  predicate Applies(k: nat, x: Inputs) {
    match k
    case 0 => LowScore(x) && ScriptHeavy(x)
    case 1 => LowScore(x) && ScriptHeavy(x)
    case 2 => LowScore(x)
    case 3 => LowScore(x) && x.router == Pages
    case 4 => x.metrics.lcp > 2.5
    case 5 => x.metrics.lcp > 4.0
    case 6 => x.metrics.cls > 0.1
    case 7 => x.router == Pages
    case 8 => x.router != Pages
    case 9 => x.nonOptimizedImages > 2
    case 10 => x.resources.totalBytes > 1000000
    case _ => false
  }

  /** The entry rule `k` appends. */
  function Entry(k: nat, x: Inputs): Recommendation
    requires k < 11
  {
    match k
    case 0 => ReduceJsBundle(RoundKB(x.resources.jsBytes), x.resources.jsResourceCount)
    case 1 => ImplementServerComponents
    case 2 => OptimizeDataFetching
    case 3 => ConfigureSwcMinifier
    case 4 => OptimizeLcp
    case 5 => ImplementFontOptimization
    case 6 => ReduceLayoutShifts
    case 7 => UpgradeToAppRouter
    case 8 => OptimizeAppRouterUsage
    case 9 => UseImageOptimization(x.nonOptimizedImages)
    case 10 => ReducePageSize(RoundKB(x.resources.totalBytes))
  }

  /** Rule `k` applied to the list built so far. */
  ghost function Step(rs: seq<Recommendation>, k: nat, x: Inputs): seq<Recommendation>
    requires k < 11
  {
    if Applies(k, x) then rs + [Entry(k, x)] else rs
  }

  /** The list after the first `n` rules. */
  ghost function Rules(x: Inputs, n: nat): seq<Recommendation>
    requires n <= 11
  {
    if n == 0 then [] else Step(Rules(x, n - 1), n - 1, x)
  }

  /** The rule groups of the method are the eleven rules in order. */
  lemma GroupsAreRules(score: seq<Recommendation>, lcp: seq<Recommendation>, shifts: seq<Recommendation>,
                       routing: seq<Recommendation>, images: seq<Recommendation>, technical: seq<Recommendation>,
                       x: Inputs)
    requires score == Step(Step(Step(Step([], 0, x), 1, x), 2, x), 3, x)
    requires lcp == Step(Step(score, 4, x), 5, x)
    requires shifts == Step(lcp, 6, x)
    requires routing == Step(Step(shifts, 7, x), 8, x)
    requires images == Step(routing, 9, x)
    requires technical == Step(images, 10, x)
    ensures technical == Rules(x, 11)
  {
    assert Rules(x, 1) == Step([], 0, x);
    assert Rules(x, 2) == Step(Rules(x, 1), 1, x);
    assert Rules(x, 3) == Step(Rules(x, 2), 2, x);
    assert Rules(x, 4) == score;
    assert Rules(x, 5) == Step(score, 4, x);
    assert Rules(x, 6) == lcp;
    assert Rules(x, 7) == shifts;
    assert Rules(x, 8) == Step(shifts, 7, x);
    assert Rules(x, 9) == routing;
    assert Rules(x, 10) == images;
  }

  /** `rs` holds, in rule order, exactly the fired recommendations of the
      rules with ranks in `[lo, hi)`. */
  ghost predicate Covers(rs: seq<Recommendation>, x: Inputs, lo: nat, hi: nat) {
    && InRuleOrder(rs)
    && (forall r <- rs :: lo <= Rank(r) < hi)
    && forall r :: lo <= Rank(r) < hi ==> (r in rs <==> Fires(r, x))
  }

  lemma {:induction false} CoversConcat(a: seq<Recommendation>, b: seq<Recommendation>, x: Inputs, lo: nat, mid: nat, hi: nat)
    requires lo <= mid <= hi
    requires Covers(a, x, lo, mid) && Covers(b, x, mid, hi)
    ensures Covers(a + b, x, lo, hi)
  {
    var ab := a + b;
    forall r <- ab ensures lo <= Rank(r) < hi {
      var i :| 0 <= i < |ab| && ab[i] == r;
      if i < |a| {
        assert ab[i] == a[i] && a[i] in a;
      } else {
        assert ab[i] == b[i - |a|] && b[i - |a|] in b;
      }
    }
    forall i, j | 0 <= i < j < |ab| ensures Rank(ab[i]) < Rank(ab[j]) {
      if j < |a| {
        assert ab[i] == a[i] && ab[j] == a[j];
      } else if i >= |a| {
        assert ab[i] == b[i - |a|] && ab[j] == b[j - |a|];
      } else {
        assert ab[i] == a[i] && a[i] in a;
        assert ab[j] == b[j - |a|] && b[j - |a|] in b;
      }
    }
  }

  /** Rule `k` is the only rule of rank `k`, and its entry is what the table fires at that rank. */
  lemma EntryIsTheTable(k: nat, x: Inputs)
    requires k < 11
    ensures Rank(Entry(k, x)) == k
    ensures forall r :: Rank(r) == k ==> (Fires(r, x) <==> Applies(k, x) && r == Entry(k, x))
  {
  }

  lemma StepCovers(rs: seq<Recommendation>, k: nat, x: Inputs)
    requires k < 11 && Covers(rs, x, 0, k)
    ensures Covers(Step(rs, k, x), x, 0, k + 1)
  {
    EntryIsTheTable(k, x);
    if Applies(k, x) {
      assert Covers([Entry(k, x)], x, k, k + 1);
      CoversConcat(rs, [Entry(k, x)], x, 0, k, k + 1);
    } else {
      assert Covers([], x, k, k + 1);
      CoversConcat(rs, [], x, 0, k, k + 1);
      assert rs + [] == rs;
    }
  }

  lemma {:induction false} RulesCover(x: Inputs, n: nat)
    requires n <= 11
    ensures Covers(Rules(x, n), x, 0, n)
  {
    if n > 0 {
      RulesCover(x, n - 1);
      StepCovers(Rules(x, n - 1), n - 1, x);
    }
  }

  /** Running the eleven rules yields the advice the table describes. */
  lemma RulesAreAdvice(x: Inputs)
    ensures IsAdviceFor(Rules(x, 11), x)
  {
    RulesCover(x, 11);
  }

  /** The advice is a function of the inputs: two lists that both satisfy the
      contract are equal. */
  lemma {:induction false} AdviceIsUnique(a: seq<Recommendation>, b: seq<Recommendation>, x: Inputs)
    requires IsAdviceFor(a, x) && IsAdviceFor(b, x)
    ensures a == b
  {
    SameMembersInOrder(a, b);
  }

  lemma {:induction false} SameMembersInOrder(a: seq<Recommendation>, b: seq<Recommendation>)
    requires InRuleOrder(a) && InRuleOrder(b)
    requires forall r :: r in a <==> r in b
    ensures a == b
    decreases |a|
  {
    if b != [] {
      assert b[0] in b;
    }
    if a != [] {
      SameHead(a, b);
      SameTailMembers(a, b);
      SameMembersInOrder(a[1..], b[1..]);
      assert a == [a[0]] + a[1..] && b == [b[0]] + b[1..];
    }
  }

  /** The first entry of an ordered list is the one of least rank. */
  lemma SameHead(a: seq<Recommendation>, b: seq<Recommendation>)
    requires InRuleOrder(a) && InRuleOrder(b)
    requires forall r :: r in a <==> r in b
    requires a != []
    ensures b != [] && a[0] == b[0]
  {
    assert a[0] in a;
    var j :| 0 <= j < |b| && b[j] == a[0];
    assert b[0] in b;
    var k :| 0 <= k < |a| && a[k] == b[0];
  }

  lemma SameTailMembers(a: seq<Recommendation>, b: seq<Recommendation>)
    requires InRuleOrder(a) && InRuleOrder(b)
    requires forall r :: r in a <==> r in b
    requires a != [] && b != [] && a[0] == b[0]
    ensures forall r :: r in a[1..] <==> r in b[1..]
  {
    forall r ensures r in a[1..] ==> r in b[1..] {
      if r in a[1..] {
        var i :| 1 <= i < |a| && a[i] == r;
        assert r in a;
        var i' :| 0 <= i' < |b| && b[i'] == r;
        assert i' != 0;
      }
    }
    forall r ensures r in b[1..] ==> r in a[1..] {
      if r in b[1..] {
        var i :| 1 <= i < |b| && b[i] == r;
        assert r in b;
        var i' :| 0 <= i' < |a| && a[i'] == r;
        assert i' != 0;
      }
    }
  }

  /** Exactly one of the two router recommendations is present. */
  lemma OneRouterRecommendation(rs: seq<Recommendation>, x: Inputs)
    requires IsAdviceFor(rs, x)
    ensures (UpgradeToAppRouter in rs) != (OptimizeAppRouterUsage in rs)
    ensures UpgradeToAppRouter in rs <==> x.router == Pages
  {
    assert Fires(UpgradeToAppRouter, x) <==> x.router == Pages;
    assert Fires(OptimizeAppRouterUsage, x) <==> x.router != Pages;
  }

  /** A recommendation `r` whose rule is the one right after `p`'s and that
      only fires together with `p` sits directly after `p`. */
  lemma {:induction false} DirectlyAfter(rs: seq<Recommendation>, p: Recommendation, i: nat)
    requires InRuleOrder(rs)
    requires i < |rs| && p in rs
    requires Rank(rs[i]) == Rank(p) + 1
    ensures i > 0 && rs[i - 1] == p
  {
    var j :| 0 <= j < |rs| && rs[j] == p;
  }

  /** The font entry appears only for LCP above 4 s, and always directly after the LCP entry. */
  lemma FontFollowsLcp(rs: seq<Recommendation>, x: Inputs, i: nat)
    requires IsAdviceFor(rs, x)
    requires i < |rs| && rs[i] == ImplementFontOptimization
    ensures x.metrics.lcp > 4.0
    ensures i > 0 && rs[i - 1] == OptimizeLcp
  {
    assert rs[i] in rs;
    assert Fires(OptimizeLcp, x);
    DirectlyAfter(rs, OptimizeLcp, i);
  }

  /** The Server Components entry always comes directly after the bundle-size entry. */
  lemma ServerComponentsFollowBundle(rs: seq<Recommendation>, x: Inputs, i: nat)
    requires IsAdviceFor(rs, x)
    requires i < |rs| && rs[i] == ImplementServerComponents
    ensures i > 0 && rs[i - 1] == ReduceJsBundle(RoundKB(x.resources.jsBytes), x.resources.jsResourceCount)
  {
    assert rs[i] in rs;
    var p := ReduceJsBundle(RoundKB(x.resources.jsBytes), x.resources.jsResourceCount);
    assert Fires(p, x);
    DirectlyAfter(rs, p, i);
  }

  /** The score-dependent entries appear only below a speed score of 60. */
  lemma LowScoreEntriesNeedLowScore(rs: seq<Recommendation>, x: Inputs)
    requires IsAdviceFor(rs, x)
    requires x.metrics.speedScore >= 60
    ensures forall r <- rs :: Rank(r) > 3
  {
    forall r <- rs ensures Rank(r) > 3 {
      assert Fires(r, x);
    }
  }

  /** The list follows the rule order, not the impact: a medium-impact entry
      can precede a high-impact one. */
  lemma RuleOrderIsNotImpactOrder()
    ensures exists rs, x ::
              IsAdviceFor(rs, x) && |rs| == 2 && ImpactOf(rs[0]) == Medium && ImpactOf(rs[1]) == High
  {
    var x := Inputs(Metrics(0.0, 0.0, 0.2, 100), Pages, ResourceMetrics(2000000, 0, 1, 0, 0), 0);
    var rs := [UpgradeToAppRouter, ReducePageSize(RoundKB(2000000))];
    assert rs == Rules(x, 11);
    RulesAreAdvice(x);
  }
}
