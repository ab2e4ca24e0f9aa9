/** Evidence support (apps/control-plane/internal/analysis/rules.go). */
module SupportScore {
  import opened Domain

  const FRESH_WINDOW: int := 30 * 24 * 3600 * 1000000000
  const SEMANTICS := "explainable evidence support; not probability of truth"

  // ---- Removing repeated evidence

  function Dedupe(items: seq<Evidence>): seq<Evidence> {
    if items == [] then []
    else
      var front, last := items[..|items| - 1], items[|items| - 1];
      Dedupe(front) + if HasId(front, last.id) then [] else [last]
  }

  predicate HasId(items: seq<Evidence>, id: string) {
    exists i | 0 <= i < |items| :: items[i].id == id
  }

  method DedupeEvidence(items: seq<Evidence>) returns (result: seq<Evidence>)
    ensures result == Dedupe(items)
  {
    var seen: set<string> := {};
    result := [];
    for i := 0 to |items|
      invariant result == Dedupe(items[..i])
      invariant forall id :: id in seen <==> HasId(items[..i], id)
    {
      assert items[..i + 1][..i] == items[..i];
      if items[i].id !in seen {
        seen := seen + {items[i].id};
        result := result + [items[i]];
      }
    }
    assert items[..|items|] == items;
  }

  /** Exactly the items' IDs survive, each once, represented by an item of the input. */
  lemma {:induction false} DedupeKeepsEachIdOnce(items: seq<Evidence>)
    ensures forall i, j | 0 <= i < j < |Dedupe(items)| :: Dedupe(items)[i].id != Dedupe(items)[j].id
    ensures forall id :: HasId(Dedupe(items), id) <==> HasId(items, id)
    ensures forall e | e in Dedupe(items) :: e in items
    ensures |Dedupe(items)| <= |items|
  {
    if items != [] {
      var front, last := items[..|items| - 1], items[|items| - 1];
      DedupeKeepsEachIdOnce(front);
      assert items == front + [last];
      forall id ensures HasId(Dedupe(items), id) <==> HasId(items, id) {
        HasIdOfOneMore(front, last, id);
        HasIdOfOneMore(Dedupe(front), last, id);
        assert Dedupe(front) + [] == Dedupe(front);
      }
    }
  }

  lemma HasIdOfOneMore(items: seq<Evidence>, item: Evidence, id: string)
    ensures HasId(items + [item], id) <==> HasId(items, id) || item.id == id
  {
    var more := items + [item];
    if HasId(items, id) {
      var i :| 0 <= i < |items| && items[i].id == id;
      assert more[i].id == id;
    }
    assert more[|items|].id == item.id;
  }

  // ---- The score

  function Quality(kind: string): real {
    if kind in ["test_result", "build_result", "migration"] then 1.0
    else if kind in ["code_diff", "log_output"] then 0.8
    else 0.6
  }

  function QualitySum(items: seq<Evidence>): real {
    if items == [] then 0.0 else QualitySum(items[..|items| - 1]) + Quality(items[|items| - 1].kind)
  }

  function FreshCount(items: seq<Evidence>, now: int): nat {
    if items == [] then 0
    else FreshCount(items[..|items| - 1], now) + if now - items[|items| - 1].observedAt < FRESH_WINDOW then 1 else 0
  }

  function Sources(items: seq<Evidence>): set<string> {
    set i | 0 <= i < |items| :: items[i].source
  }

  function Ratio(part: real, items: seq<Evidence>): real {
    if items == [] then 0.0 else part / |items| as real
  }

  function Weighted(coverage: real, quality: real, independence: real, freshness: real, direct: real, burden: real): real {
    (0.25 * coverage + 0.15 * quality + 0.10 * independence + 0.10 * freshness + 0.15 * coverage + 0.25 * direct)
    * (1.0 - burden)
  }

  /** The score without the clamp on independence. */
  function Score(items: seq<Evidence>, state: ClaimState, now: int): Support {
    var coverage := if items == [] then 0.0 else 1.0;
    var quality := Ratio(QualitySum(items), items);
    var independence := Ratio(|Sources(items)| as real, items);
    var freshness := Ratio(FreshCount(items, now) as real, items);
    var direct := if state.Supported? then 0.8 else if state.ExternallyVerified? then 1.0 else 0.0;
    var burden := if state.Contradicted? then 1.0 else 0.0;
    Support(Weighted(coverage, quality, independence, freshness, direct, burden), coverage, quality, independence,
            freshness, coverage, direct, burden, SEMANTICS)
  }

  /** The loop of `supportFor`. That the clamp can be left out of the specification is
      the proof that it never acts. */
  method SupportFor(items: seq<Evidence>, state: ClaimState, now: int) returns (support: Support)
    ensures support == Score(items, state, now)
    ensures InUnit(support)
  {
    var coverage := 0.0;
    if |items| > 0 {
      coverage := 1.0;
    }
    var sources, quality, totalFresh := Measure(items, now);
    var independence := 0.0;
    if |items| > 0 {
      quality := quality / |items| as real;
      totalFresh := totalFresh / |items| as real;
      independence := |sources| as real / |items| as real;
      SourcesAreFew(items);
      RatioInUnit(|sources| as real, |items|);
      if independence > 1.0 {
        independence := 1.0;
      }
    }
    var direct := 0.0;
    if state.Supported? {
      direct := 0.8;
    }
    if state.ExternallyVerified? {
      direct := 1.0;
    }
    var burden := 0.0;
    if state.Contradicted? {
      burden := 1.0;
    }
    support := Support(Weighted(coverage, quality, independence, totalFresh, direct, burden), coverage, quality,
                       independence, totalFresh, coverage, direct, burden, SEMANTICS);
    ScoreInUnit(items, state, now);
  }

  /** The loop over the items. */
  method Measure(items: seq<Evidence>, now: int) returns (sources: set<string>, quality: real, totalFresh: real)
    ensures sources == Sources(items) && quality == QualitySum(items) && totalFresh == FreshCount(items, now) as real
  {
    sources, quality, totalFresh := {}, 0.0, 0.0;
    for i := 0 to |items|
      invariant sources == Sources(items[..i])
      invariant quality == QualitySum(items[..i])
      invariant totalFresh == FreshCount(items[..i], now) as real
    {
      assert items[..i + 1][..i] == items[..i];
      SourcesOfOneMore(items[..i], items[i]);
      assert items[..i + 1] == items[..i] + [items[i]];
      sources := sources + {items[i].source};
      if items[i].kind in ["test_result", "build_result", "migration"] {
        quality := quality + 1.0;
      } else if items[i].kind in ["code_diff", "log_output"] {
        quality := quality + 0.8;
      } else {
        quality := quality + 0.6;
      }
      if now - items[i].observedAt < FRESH_WINDOW {
        totalFresh := totalFresh + 1.0;
      }
    }
    assert items[..|items|] == items;
  }

  // ---- Bounds

  ghost predicate InUnit(s: Support) {
    && 0.0 <= s.value <= 1.0 && 0.0 <= s.coverage <= 1.0 && 0.0 <= s.quality <= 1.0
    && 0.0 <= s.independence <= 1.0 && 0.0 <= s.freshness <= 1.0 && 0.0 <= s.scopeMatch <= 1.0
    && 0.0 <= s.direct <= 1.0 && 0.0 <= s.burden <= 1.0
  }

  lemma SourcesOfOneMore(items: seq<Evidence>, item: Evidence)
    ensures Sources(items + [item]) == Sources(items) + {item.source}
  {
    var more := items + [item];
    forall s ensures s in Sources(more) <==> s in Sources(items) || s == item.source {
      if s in Sources(items) {
        var i :| 0 <= i < |items| && items[i].source == s;
        assert more[i].source == s;
      }
      assert more[|items|].source == item.source;
    }
  }

  lemma {:induction false} SourcesAreFew(items: seq<Evidence>)
    ensures |Sources(items)| <= |items|
  {
    if items != [] {
      var front := items[..|items| - 1];
      SourcesAreFew(front);
      SourcesOfOneMore(front, items[|items| - 1]);
      assert items == front + [items[|items| - 1]];
    }
  }

  lemma {:induction false} SumsAreBounded(items: seq<Evidence>, now: int)
    ensures 0.0 <= QualitySum(items) <= |items| as real
    ensures FreshCount(items, now) <= |items|
  {
    if items != [] {
      SumsAreBounded(items[..|items| - 1], now);
    }
  }

  lemma RatioInUnit(part: real, n: nat)
    requires n > 0 && 0.0 <= part <= n as real
    ensures 0.0 <= part / n as real <= 1.0
  {
  }

  lemma WeightedInUnit(c: real, q: real, i: real, f: real, d: real, b: real)
    requires 0.0 <= c <= 1.0 && 0.0 <= q <= 1.0 && 0.0 <= i <= 1.0 && 0.0 <= f <= 1.0 && 0.0 <= d <= 1.0
    requires b == 0.0 || b == 1.0
    ensures 0.0 <= Weighted(c, q, i, f, d, b) <= 1.0
    ensures b == 1.0 ==> Weighted(c, q, i, f, d, b) == 0.0
  {
    var sum := 0.25 * c + 0.15 * q + 0.10 * i + 0.10 * f + 0.15 * c + 0.25 * d;
    assert 0.0 <= sum <= 1.0;
    assert Weighted(c, q, i, f, d, b) == sum * (1.0 - b);
    assert if b == 0.0 then sum * (1.0 - b) == sum else sum * (1.0 - b) == 0.0;
  }

  /** Every component and the weighted value lie in [0, 1]; a contradicted claim has
      value 0, and there are never more sources than items. */
  lemma ScoreInUnit(items: seq<Evidence>, state: ClaimState, now: int)
    ensures InUnit(Score(items, state, now))
    ensures state.Contradicted? ==> Score(items, state, now).value == 0.0
    ensures |Sources(items)| <= |items|
  {
    SourcesAreFew(items);
    SumsAreBounded(items, now);
    if items != [] {
      RatioInUnit(QualitySum(items), |items|);
      RatioInUnit(|Sources(items)| as real, |items|);
      RatioInUnit(FreshCount(items, now) as real, |items|);
    }
    var s := Score(items, state, now);
    WeightedInUnit(s.coverage, s.quality, s.independence, s.freshness, s.direct, s.burden);
  }

  // ---- The score, by counting the items

  ghost function OfKinds(items: seq<Evidence>, kinds: set<string>): set<nat> {
    set i: nat | i < |items| && items[i].kind in kinds
  }

  /** Observed less than thirty days ago, in nanoseconds. */
  ghost function Recent(items: seq<Evidence>, now: int): set<nat> {
    set i: nat | i < |items| && now - items[i].observedAt < 2592000000000000
  }

  lemma OneMoreOfKinds(items: seq<Evidence>, n: nat, kinds: set<string>)
    requires n < |items|
    ensures |OfKinds(items[..n + 1], kinds)| == |OfKinds(items[..n], kinds)| + if items[n].kind in kinds then 1 else 0
  {
    assert OfKinds(items[..n + 1], kinds) == OfKinds(items[..n], kinds) + if items[n].kind in kinds then {n} else {};
  }

  lemma OneMoreRecent(items: seq<Evidence>, n: nat, now: int)
    requires n < |items|
    ensures |Recent(items[..n + 1], now)|
            == |Recent(items[..n], now)| + if now - items[n].observedAt < 2592000000000000 then 1 else 0
  {
    assert Recent(items[..n + 1], now)
           == Recent(items[..n], now) + if now - items[n].observedAt < 2592000000000000 then {n} else {};
  }

  lemma {:induction false} ItemsCounted(items: seq<Evidence>, n: nat, now: int)
    requires n <= |items|
    ensures var strong, fair := |OfKinds(items[..n], STRONG)|, |OfKinds(items[..n], FAIR)|;
            QualitySum(items[..n]) == strong as real + 0.8 * fair as real + 0.6 * (n - strong - fair) as real
    ensures FreshCount(items[..n], now) == |Recent(items[..n], now)|
  {
    hide OfKinds, Recent;
    if n == 0 {
      NoItems(now);
      assert items[..0] == [];
    } else {
      ItemsCounted(items, n - 1, now);
      OneMoreOfKinds(items, n - 1, STRONG);
      OneMoreOfKinds(items, n - 1, FAIR);
      OneMoreRecent(items, n - 1, now);
      assert items[..n][..n - 1] == items[..n - 1];
    }
  }

  lemma NoItems(now: int)
    ensures |OfKinds([], STRONG)| == 0 && |OfKinds([], FAIR)| == 0 && |Recent([], now)| == 0
  {
    assert OfKinds([], STRONG) == {} && OfKinds([], FAIR) == {} && Recent([], now) == {};
  }

  ghost const STRONG := {"test_result", "build_result", "migration"}
  ghost const FAIR := {"code_diff", "log_output"}

  /** The component times the number of items is the count. */
  ghost predicate Averages(component: real, total: real, n: nat) {
    if n == 0 then component == 0.0 else component * n as real == total
  }

  ghost predicate Scores(s: Support, items: seq<Evidence>, state: ClaimState, now: int) {
    var n, strong, fair := |items|, |OfKinds(items, STRONG)|, |OfKinds(items, FAIR)|;
    && s.coverage == s.scopeMatch == (if items == [] then 0.0 else 1.0)
    && Averages(s.quality, strong as real + 0.8 * fair as real + 0.6 * (n - strong - fair) as real, n)
    && Averages(s.independence, |set i: nat | i < |items| :: items[i].source| as real, n)
    && Averages(s.freshness, |Recent(items, now)| as real, n)
    && s.direct == (if state.ExternallyVerified? then 1.0 else if state.Supported? then 0.8 else 0.0)
    && s.burden == (if state.Contradicted? then 1.0 else 0.0)
    && s.value == (if state.Contradicted? then 0.0
                   else 0.40 * s.coverage + 0.15 * s.quality + 0.10 * s.independence + 0.10 * s.freshness + 0.25 * s.direct)
    && s.semantics == "explainable evidence support; not probability of truth"
  }

  /** Quality by kind of evidence, independence by distinct sources, freshness by age, each an
      average over the items, weighted into the value; nothing counts for a contradicted claim. */
  lemma ScoredExactly(items: seq<Evidence>, state: ClaimState, now: int)
    ensures Scores(Score(items, state, now), items, state, now)
  {
    hide OfKinds, Recent, FreshCount, QualitySum, Weighted, Sources;
    ItemsCounted(items, |items|, now);
    assert items[..|items|] == items;
    SourcesAre(items);
    ScoreInUnit(items, state, now);
    ValueIs(Score(items, state, now));
    if items != [] {
      DividedTimes(QualitySum(items), |items|);
      DividedTimes(|Sources(items)| as real, |items|);
      DividedTimes(FreshCount(items, now) as real, |items|);
    }
  }

  lemma SourcesAre(items: seq<Evidence>)
    ensures Sources(items) == (set i: nat | i < |items| :: items[i].source)
  {
  }

  lemma ValueIs(s: Support)
    requires s.burden == 0.0 || s.burden == 1.0
    ensures Weighted(s.coverage, s.quality, s.independence, s.freshness, s.direct, s.burden)
            == if s.burden == 1.0 then 0.0
               else 0.40 * s.coverage + 0.15 * s.quality + 0.10 * s.independence + 0.10 * s.freshness + 0.25 * s.direct
  {
  }

  lemma DividedTimes(x: real, n: nat)
    requires n > 0
    ensures x / n as real * n as real == x
  {
  }

  /** One fresh test result: 0.75 of itself, 0.95 behind a supported claim, 1 behind an
      externally verified one. */
  lemma OneFreshTest(e: Evidence, state: ClaimState, now: int)
    requires e.kind == "test_result" && now - e.observedAt < 30 * 24 * 3600 * 1000000000
    ensures Score([e], state, now).value
            == if state.Contradicted? then 0.0 else if state.ExternallyVerified? then 1.0 else if state.Supported? then 0.95 else 0.75
  {
    hide Score, Sources;
    ScoredExactly([e], state, now);
    assert OfKinds([e], STRONG) == {0} && OfKinds([e], FAIR) == {} && Recent([e], now) == {0};
    assert (set i: nat | i < |[e]| :: [e][i].source) == {e.source};
  }
}
