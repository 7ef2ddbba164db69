/**
 * Resource accounting and the speed score of the content script:
 * getResourceMetrics folds over the `resource` performance entries and
 * calculateSpeedScore turns the totals into a 0-100 score with penalties for
 * script-heavy (likely client-side rendered) pages.
 */
module Resources {
  import opened Page

  /** A `resource` performance entry. A missing `transferSize` reads as 0,
      as `r.transferSize || 0` does. */
  datatype ResourceEntry = ResourceEntry(name: string, initiatorType: string, transferSize: nat, duration: real)

  datatype ResourceMetrics = ResourceMetrics(
    totalBytes: nat, jsBytes: nat, totalResources: nat, jsResourceCount: nat, slowResources: nat)

  predicate EndsWith(s: string, suffix: string) {
    |suffix| <= |s| && s[|s| - |suffix|..] == suffix
  }

  /** The filter that picks the JavaScript resources. */
  predicate IsScript(r: ResourceEntry) {
    EndsWith(r.name, ".js") || EndsWith(r.name, ".jsx") || r.initiatorType == "script"
  }

  predicate IsSlow(r: ResourceEntry) {
    r.duration > 1000.0
  }

  /** The reduce `acc + (r.transferSize || 0)`, left to right: no byte is
      counted exactly when no entry transferred any. */
  function Bytes(rs: seq<ResourceEntry>): (n: nat)
    ensures n == 0 <==> forall i | 0 <= i < |rs| :: rs[i].transferSize == 0
  {
    if rs == [] then 0 else Bytes(rs[..|rs| - 1]) + rs[|rs| - 1].transferSize
  }

  /** The script filter, keeping the order of the entries. */
  function Scripts(rs: seq<ResourceEntry>): (js: seq<ResourceEntry>)
    ensures |js| <= |rs|
  {
    if rs == [] then []
    else
      var init := Scripts(rs[..|rs| - 1]);
      var last := rs[|rs| - 1];
      if IsScript(last) then init + [last] else init
  }

  /** The filter keeps exactly the script entries. */
  lemma {:induction false} ScriptsAreTheScriptEntries(rs: seq<ResourceEntry>)
    ensures forall r <- Scripts(rs) :: IsScript(r) && r in rs
    ensures forall r <- rs :: IsScript(r) ==> r in Scripts(rs)
  {
    if rs != [] {
      var init := rs[..|rs| - 1];
      var last := rs[|rs| - 1];
      ScriptsAreTheScriptEntries(init);
      assert rs == init + [last];
    }
  }

  function CountSlow(rs: seq<ResourceEntry>): (n: nat)
    ensures n <= |rs|
  {
    if rs == [] then 0
    else CountSlow(rs[..|rs| - 1]) + (if IsSlow(rs[|rs| - 1]) then 1 else 0)
  }

  /** No entry is slow exactly when the count of slow entries is zero. */
  lemma {:induction false} NoSlowIffCountZero(rs: seq<ResourceEntry>)
    ensures CountSlow(rs) == 0 <==> forall r <- rs :: !IsSlow(r)
  {
    if rs != [] {
      var init := rs[..|rs| - 1];
      var last := rs[|rs| - 1];
      NoSlowIffCountZero(init);
      assert rs == init + [last];
    }
  }

  /** getResourceMetrics over the resource entries read from the performance timeline. */
  function GetResourceMetrics(rs: seq<ResourceEntry>): (m: ResourceMetrics)
    ensures m.totalResources == |rs|
    ensures m.jsResourceCount <= m.totalResources
    ensures m.slowResources <= m.totalResources
    ensures m.jsBytes <= m.totalBytes
  {
    ScriptBytesAtMostTotal(rs);
    ResourceMetrics(Bytes(rs), Bytes(Scripts(rs)), |rs|, |Scripts(rs)|, CountSlow(rs))
  }

  /** Script bytes are part of the total bytes. */
  lemma {:induction false} ScriptBytesAtMostTotal(rs: seq<ResourceEntry>)
    ensures Bytes(Scripts(rs)) <= Bytes(rs)
  {
    if rs != [] {
      var init := rs[..|rs| - 1];
      var last := rs[|rs| - 1];
      ScriptBytesAtMostTotal(init);
      if IsScript(last) {
        var js := Scripts(init) + [last];
        assert js[..|js| - 1] == Scripts(init);
      }
    }
  }

  function Plus(a: ResourceMetrics, b: ResourceMetrics): ResourceMetrics {
    ResourceMetrics(
      a.totalBytes + b.totalBytes, a.jsBytes + b.jsBytes, a.totalResources + b.totalResources,
      a.jsResourceCount + b.jsResourceCount, a.slowResources + b.slowResources)
  }

  lemma {:induction false} BytesOfConcat(a: seq<ResourceEntry>, b: seq<ResourceEntry>)
    ensures Bytes(a + b) == Bytes(a) + Bytes(b)
  {
    if b != [] {
      var b' := b[..|b| - 1];
      assert (a + b)[..|a + b| - 1] == a + b';
      BytesOfConcat(a, b');
    } else {
      assert a + b == a;
    }
  }

  lemma {:induction false} ScriptsOfConcat(a: seq<ResourceEntry>, b: seq<ResourceEntry>)
    ensures Scripts(a + b) == Scripts(a) + Scripts(b)
  {
    if b != [] {
      var b' := b[..|b| - 1];
      assert (a + b)[..|a + b| - 1] == a + b';
      ScriptsOfConcat(a, b');
    } else {
      assert a + b == a;
    }
  }

  lemma {:induction false} CountSlowOfConcat(a: seq<ResourceEntry>, b: seq<ResourceEntry>)
    ensures CountSlow(a + b) == CountSlow(a) + CountSlow(b)
  {
    if b != [] {
      var b' := b[..|b| - 1];
      assert (a + b)[..|a + b| - 1] == a + b';
      CountSlowOfConcat(a, b');
    } else {
      assert a + b == a;
    }
  }

  /** The fold is a homomorphism: the metrics of two batches of entries read
      together are the sums of their separate metrics. */
  lemma MetricsOfConcat(a: seq<ResourceEntry>, b: seq<ResourceEntry>)
    ensures GetResourceMetrics(a + b) == Plus(GetResourceMetrics(a), GetResourceMetrics(b))
  {
    var ab := a + b;
    var sa, sb := Scripts(a), Scripts(b);
    BytesOfConcat(a, b);
    ScriptsOfConcat(a, b);
    BytesOfConcat(sa, sb);
    CountSlowOfConcat(a, b);
    var total, js, slow := Bytes(ab), Bytes(Scripts(ab)), CountSlow(ab);
    assert total == Bytes(a) + Bytes(b);
    assert js == Bytes(sa) + Bytes(sb);
    assert slow == CountSlow(a) + CountSlow(b);
  }

  // ---------------------------------------------------------------------------
  // calculateSpeedScore. Kilobytes are bytes / 1024 as reals; no IEEE rounding.

  function Max0(x: real): real { if x < 0.0 then 0.0 else x }

  /** Math.round: the nearest integer, halves rounded up. */
  function Round(x: real): (r: int)
    ensures r as real - 0.5 <= x < r as real + 0.5
  {
    (x + 0.5).Floor
  }

  function KB(bytes: nat): real { bytes as real / 1024.0 }

  /** The base score before any penalty. */
  function BaseScore(m: ResourceMetrics): real {
    Max0(100.0 - KB(m.totalBytes) / 50.0)
  }

  /** The client-side-rendering signal: more than 40% script bytes (with a
      zero total replaced by 1) or more than 15 script resources. */
  predicate CsrLikely(m: ResourceMetrics) {
    var totalKB := KB(m.totalBytes);
    KB(m.jsBytes) / (if totalKB == 0.0 then 1.0 else totalKB) > 0.4 || m.jsResourceCount > 15
  }

  /** More than 1000 KB of script. */
  predicate HeavyJs(m: ResourceMetrics) {
    KB(m.jsBytes) > 1000.0
  }

  /** The penalty the CSR signal costs: 20 for the Pages Router, 10 otherwise. */
  function CsrPenalty(m: ResourceMetrics, router: Router): int {
    if !CsrLikely(m) then 0 else if router == Pages then 20 else 10
  }

  function HeavyJsPenalty(m: ResourceMetrics): int {
    if HeavyJs(m) then 15 else 0
  }

  function CalculateSpeedScore(m: ResourceMetrics, router: Router): (r: int)
    ensures 0 <= r <= 100
    ensures r <= Round(BaseScore(m))
    ensures !CsrLikely(m) && !HeavyJs(m) ==> r == Round(BaseScore(m))
    // Both penalties together, floored at 0 once: the two successive floors never differ from one.
    ensures r == Round(Max0(BaseScore(m) - (CsrPenalty(m, router) + HeavyJsPenalty(m)) as real))
    // While the base stays clear of the floor, every trigger costs exactly its penalty.
    ensures BaseScore(m) >= 35.0 ==> r == Round(BaseScore(m)) - CsrPenalty(m, router) - HeavyJsPenalty(m)
  {
    var s0 := BaseScore(m);
    var s1 := if CsrLikely(m) then (if router == Pages then Max0(s0 - 20.0) else Max0(s0 - 10.0)) else s0;
    var s2 := if HeavyJs(m) then Max0(s1 - 15.0) else s1;
    RoundShift(s0, CsrPenalty(m, router));
    RoundShift(s0 - CsrPenalty(m, router) as real, HeavyJsPenalty(m));
    var r := Round(s2);
    if r < 100 then r else 100
  }

  lemma RoundShift(x: real, k: int)
    ensures Round(x - k as real) == Round(x) - k
  {
  }

  lemma RoundMonotone(x: real, y: real)
    requires x <= y
    ensures Round(x) <= Round(y)
  {
  }

  /** The Pages Router never scores higher than any other router on the same resources. */
  lemma PagesRouterScoresNoHigher(m: ResourceMetrics, router: Router)
    ensures CalculateSpeedScore(m, Pages) <= CalculateSpeedScore(m, router)
  {
    var s0 := BaseScore(m);
    if CsrLikely(m) && router != Pages {
      var p := Max0(s0 - 20.0);
      var o := Max0(s0 - 10.0);
      assert p <= o;
      RoundMonotone(if HeavyJs(m) then Max0(p - 15.0) else p, if HeavyJs(m) then Max0(o - 15.0) else o);
    }
  }

  /** A page that transferred nothing scores 100 unless it loaded more than
      15 script resources: the zero total is replaced by 1 in the ratio. */
  lemma EmptyTransferScoresFull(m: ResourceMetrics, router: Router)
    requires m.totalBytes == 0 && m.jsBytes == 0 && m.jsResourceCount <= 15
    ensures CalculateSpeedScore(m, router) == 100
  {
    assert BaseScore(m) == 100.0;
  }
}
