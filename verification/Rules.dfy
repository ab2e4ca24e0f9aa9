/** The deployment rules analyzer (apps/control-plane/internal/analysis/rules.go). What the
    text searches find in each event, which evidence they bind and how claims are worded
    are parameters; the folds, the states and the binding loop are the code's. */
module Rules {
  import opened Text
  import opened Domain
  import opened SupportScore
  import Policy

  /** The results of the searches in one event. */
  datatype Signs = Signs(
    passed: bool, failed: bool, compatibility: bool, privacy: bool, test: bool, build: bool, leak: bool, rollback: bool, ready: bool)

  datatype Observed = Observed(
    buildPass: bool, buildFail: bool, unitPass: bool, unitFail: bool, compatibilityPass: bool, compatibilityFail: bool,
    privacyPass: bool, privacyLeak: bool, rollbackReady: bool)

  predicate Unit(s: Signs) { s.test && !s.compatibility && !s.privacy }
  predicate BuildPass(s: Signs) { s.build && s.passed }
  predicate BuildFail(s: Signs) { s.build && s.failed }
  predicate UnitPass(s: Signs) { Unit(s) && s.passed }
  predicate UnitFail(s: Signs) { Unit(s) && s.failed }
  predicate CompatibilityPass(s: Signs) { s.compatibility && s.passed }
  predicate CompatibilityFail(s: Signs) { s.compatibility && s.failed }
  predicate PrivacyPass(s: Signs) { s.privacy && s.test && s.passed }
  predicate PrivacyLeak(s: Signs) { s.leak }
  predicate RollbackReady(s: Signs) { s.rollback && (s.passed || s.ready) }

  predicate Any(events: seq<Signs>, pick: Signs -> bool) {
    exists i | 0 <= i < |events| :: pick(events[i])
  }

  lemma AnyOneMore(events: seq<Signs>, i: nat, pick: Signs -> bool)
    requires i < |events|
    ensures Any(events[..i + 1], pick) <==> Any(events[..i], pick) || pick(events[i])
  {
    if Any(events[..i], pick) {
      var k :| 0 <= k < i && pick(events[..i][k]);
      assert events[..i + 1][k] == events[k];
    }
    assert events[..i + 1][i] == events[i];
  }

  function Seen(events: seq<Signs>): Observed {
    Observed(Any(events, BuildPass), Any(events, BuildFail), Any(events, UnitPass), Any(events, UnitFail),
             Any(events, CompatibilityPass), Any(events, CompatibilityFail), Any(events, PrivacyPass), Any(events, PrivacyLeak),
             Any(events, RollbackReady))
  }

  /** What one more event adds. */
  function Added(o: Observed, s: Signs): Observed {
    AddedSafety(AddedChecks(o, s), s)
  }

  function AddedChecks(o: Observed, s: Signs): Observed {
    o.(buildPass := o.buildPass || BuildPass(s), buildFail := o.buildFail || BuildFail(s),
       unitPass := o.unitPass || UnitPass(s), unitFail := o.unitFail || UnitFail(s))
  }

  function AddedSafety(o: Observed, s: Signs): Observed {
    o.(compatibilityPass := o.compatibilityPass || CompatibilityPass(s),
       compatibilityFail := o.compatibilityFail || CompatibilityFail(s),
       privacyPass := o.privacyPass || PrivacyPass(s), privacyLeak := o.privacyLeak || PrivacyLeak(s),
       rollbackReady := o.rollbackReady || RollbackReady(s))
  }

  lemma SeenOneMore(events: seq<Signs>, i: nat)
    requires i < |events|
    ensures Seen(events[..i + 1]) == Added(Seen(events[..i]), events[i])
  {
    hide Any;
    AnyOneMore(events, i, BuildPass);
    AnyOneMore(events, i, BuildFail);
    AnyOneMore(events, i, UnitPass);
    AnyOneMore(events, i, UnitFail);
    AnyOneMore(events, i, CompatibilityPass);
    AnyOneMore(events, i, CompatibilityFail);
    AnyOneMore(events, i, PrivacyPass);
    AnyOneMore(events, i, PrivacyLeak);
    AnyOneMore(events, i, RollbackReady);
  }

  method Observe(events: seq<Signs>) returns (o: Observed)
    ensures o == Seen(events)
  {
    o := Observed(false, false, false, false, false, false, false, false, false);
    for i := 0 to |events|
      invariant o == Seen(events[..i])
    {
      SeenOneMore(events, i);
      o := ObserveEvent(o, events[i]);
    }
    assert events[..|events|] == events;
  }

  method ObserveEvent(before: Observed, s: Signs) returns (o: Observed)
    ensures o == Added(before, s)
  {
    o := ObserveChecks(before, s);
    o := ObserveSafety(o, s);
  }

  method ObserveBuild(before: Observed, s: Signs) returns (o: Observed)
    ensures o == before.(buildPass := before.buildPass || BuildPass(s), buildFail := before.buildFail || BuildFail(s))
  {
    o := before;
    if s.build {
      o := o.(buildPass := o.buildPass || s.passed, buildFail := o.buildFail || s.failed);
    }
  }

  method ObserveChecks(before: Observed, s: Signs) returns (o: Observed)
    ensures o == AddedChecks(before, s)
  {
    o := ObserveBuild(before, s);
    if s.test && !s.compatibility && !s.privacy {
      o := o.(unitPass := o.unitPass || s.passed, unitFail := o.unitFail || s.failed);
    }
  }

  method ObserveSafety(before: Observed, s: Signs) returns (o: Observed)
    ensures o == AddedSafety(before, s)
  {
    o := ObserveCompatibility(before, s);
    o := ObservePrivacy(o, s);
    if s.rollback && (s.passed || s.ready) {
      o := o.(rollbackReady := true);
    }
  }

  method ObserveCompatibility(before: Observed, s: Signs) returns (o: Observed)
    ensures o == before.(compatibilityPass := before.compatibilityPass || CompatibilityPass(s),
                         compatibilityFail := before.compatibilityFail || CompatibilityFail(s))
  {
    o := before;
    if s.compatibility {
      o := o.(compatibilityPass := o.compatibilityPass || s.passed, compatibilityFail := o.compatibilityFail || s.failed);
    }
  }

  method ObservePrivacy(before: Observed, s: Signs) returns (o: Observed)
    ensures o == before.(privacyPass := before.privacyPass || PrivacyPass(s), privacyLeak := before.privacyLeak || PrivacyLeak(s))
  {
    o := before;
    if s.privacy && s.test {
      o := o.(privacyPass := o.privacyPass || s.passed);
    }
    if s.leak {
      o := o.(privacyLeak := true);
    }
  }

  // ---- Claims

  function ObservedState(passed: bool, failed: bool): ClaimState {
    if failed then ClaimState.Contradicted else if passed then Supported else VerificationPending
  }

  datatype Topic = Build | Tests | Compatibility | Privacy | Rollback

  const TOPICS := [Build, Tests, Compatibility, Privacy, Rollback]

  function Id(topic: Topic): string {
    match topic
    case Build => "claim_build"
    case Tests => "claim_tests"
    case Compatibility => "claim_compatibility"
    case Privacy => "claim_privacy"
    case Rollback => "claim_rollback"
  }

  function StateOf(topic: Topic, o: Observed): ClaimState {
    match topic
    case Build => ObservedState(o.buildPass, o.buildFail)
    case Tests => ObservedState(o.unitPass, o.unitFail)
    case Compatibility => ObservedState(o.compatibilityPass, o.compatibilityFail)
    case Privacy => ObservedState(o.privacyPass, o.privacyLeak)
    case Rollback => ObservedState(o.rollbackReady, false)
  }

  datatype Words = Words(statement: string, scope: string, required: seq<string>, justification: string)

  /** How each claim is worded. */
  type Wording = Topic -> Words

  const UNSCORED := Support(0.0, 0.0, 0.0, 0.0, 0.0, 0.0, 0.0, 0.0, "")

  function ClaimOn(topic: Topic, wording: Wording, o: Observed): Claim {
    var words := wording(topic);
    Claim(Id(topic), "", words.statement, words.scope, topic != Rollback, if topic != Rollback then "critical" else "supporting",
          words.required, StateOf(topic, o), words.justification, UNSCORED, [], 0)
  }

  function ClaimsFrom(wording: Wording, o: Observed): seq<Claim> {
    seq(|TOPICS|, i requires 0 <= i < |TOPICS| => ClaimOn(TOPICS[i], wording, o))
  }

  // ---- Which evidence a claim is bound to

  function Filtered(items: seq<Evidence>, pick: Evidence -> bool): seq<Evidence> {
    if items == [] then []
    else
      var last := items[|items| - 1];
      Filtered(items[..|items| - 1], pick) + if pick(last) then [last] else []
  }

  /** The loop of `filterEvidence`; `pick` is whether some term occurs. */
  method FilterEvidence(items: seq<Evidence>, pick: Evidence -> bool) returns (result: seq<Evidence>)
    ensures result == Filtered(items, pick)
  {
    result := [];
    for i := 0 to |items|
      invariant result == Filtered(items[..i], pick)
    {
      assert items[..i + 1][..i] == items[..i];
      if pick(items[i]) {
        result := result + [items[i]];
      }
    }
    assert items[..|items|] == items;
  }

  lemma {:induction false} FilteredItems(items: seq<Evidence>, pick: Evidence -> bool)
    ensures forall e | e in Filtered(items, pick) :: e in items && pick(e)
  {
    if items != [] {
      FilteredItems(items[..|items| - 1], pick);
    }
  }

  /** `terms` says whether one of the terms searched for the claim occurs in the item. */
  type Terms = (Topic, Evidence) -> bool

  function OfKind(items: seq<Evidence>, kind: string): seq<Evidence> {
    Filtered(items, (e: Evidence) => e.kind == kind)
  }

  function WithTerms(items: seq<Evidence>, topic: Topic, terms: Terms): seq<Evidence> {
    Filtered(items, (e: Evidence) => terms(topic, e))
  }

  function BindingsOf(topic: Topic, items: seq<Evidence>, terms: Terms): seq<Evidence> {
    match topic
    case Build => OfKind(items, "build_result")
    case Tests => OfKind(items, "test_result")
    case Compatibility => OfKind(items, "migration") + WithTerms(items, topic, terms)
    case _ => WithTerms(items, topic, terms)
  }

  /** One list per topic, in the topics' order. */
  function AllBindings(items: seq<Evidence>, terms: Terms): seq<seq<Evidence>> {
    seq(|TOPICS|, i requires 0 <= i < |TOPICS| => BindingsOf(TOPICS[i], items, terms))
  }

  method CollectBindings(items: seq<Evidence>, terms: Terms) returns (bindings: seq<seq<Evidence>>)
    ensures bindings == AllBindings(items, terms)
  {
    var builds := FilterEvidence(items, (e: Evidence) => e.kind == "build_result");
    var tests := FilterEvidence(items, (e: Evidence) => e.kind == "test_result");
    var migrations := FilterEvidence(items, (e: Evidence) => e.kind == "migration");
    var compatible := FilterEvidence(items, (e: Evidence) => terms(Compatibility, e));
    var private_ := FilterEvidence(items, (e: Evidence) => terms(Privacy, e));
    var rollback := FilterEvidence(items, (e: Evidence) => terms(Rollback, e));
    bindings := [builds, tests, migrations + compatible, private_, rollback];
  }

  // ---- The binding loop

  /** A claim with its evidence. */
  function Bound(c: Claim, items: seq<Evidence>, now: int): Claim {
    c.(support := Score(items, c.state, now), evidence := c.evidence + Ids(items))
  }

  function Ids(items: seq<Evidence>): seq<string> {
    seq(|items|, i requires 0 <= i < |items| => items[i].id)
  }

  function Edges(c: Claim, items: seq<Evidence>): seq<Relation> {
    seq(|items|, i requires 0 <= i < |items| =>
      Relation("", items[i].id, c.id, if c.state.Contradicted? then Contradicts else Supports, c.justification))
  }

  predicate Open(c: Claim) {
    c.critical && (c.state.Unsupported? || c.state.VerificationPending?)
  }

  function Missing(c: Claim): Unknown {
    Unknown("", "", "What direct evidence verifies: " + c.statement, true, false)
  }

  function Assumed(c: Claim): Assumption {
    Assumption("", "", c.id, "Required evidence is assumed but not present: " + JoinComma(c.required), true, "open", "blocks_deployment")
  }

  /** One round per claim. */
  function Extended(a: Analysis, c: Claim, items: seq<Evidence>, now: int): Analysis {
    a.(claims := a.claims + [Bound(c, items, now)], relations := a.relations + Edges(c, items),
       assumptions := a.assumptions + if Open(c) then [Assumed(c)] else [],
       unknowns := a.unknowns + if Open(c) then [Missing(c)] else [])
  }

  function BoundAll(claims: seq<Claim>, bindings: seq<seq<Evidence>>, evidence: seq<Evidence>, now: int): Analysis
    requires |bindings| == |claims|
  {
    if claims == [] then Analysis([], evidence, [], [], [])
    else
      var last := |claims| - 1;
      Extended(BoundAll(claims[..last], bindings[..last], evidence, now), claims[last], Dedupe(bindings[last]), now)
  }

  lemma BoundOneMore(claims: seq<Claim>, bindings: seq<seq<Evidence>>, evidence: seq<Evidence>, now: int, i: nat)
    requires |bindings| == |claims| && i < |claims|
    ensures BoundAll(claims[..i + 1], bindings[..i + 1], evidence, now)
            == Extended(BoundAll(claims[..i], bindings[..i], evidence, now), claims[i], Dedupe(bindings[i]), now)
  {
    assert claims[..i + 1][..i] == claims[..i] && bindings[..i + 1][..i] == bindings[..i];
  }

  method BindAll(claims: seq<Claim>, bindings: seq<seq<Evidence>>, evidence: seq<Evidence>, now: int) returns (a: Analysis)
    requires |bindings| == |claims|
    ensures a == BoundAll(claims, bindings, evidence, now)
    ensures forall c | c in a.claims :: InUnit(c.support)
  {
    a := Analysis([], evidence, [], [], []);
    for i := 0 to |claims|
      invariant a == BoundAll(claims[..i], bindings[..i], evidence, now)
      invariant forall c | c in a.claims :: InUnit(c.support)
    {
      BoundOneMore(claims, bindings, evidence, now, i);
      var items := DedupeEvidence(bindings[i]);
      a := Bind(a, claims[i], items, now);
    }
    assert claims[..|claims|] == claims && bindings[..|claims|] == bindings;
  }

  /** One round. */
  method Bind(before: Analysis, claim: Claim, items: seq<Evidence>, now: int) returns (a: Analysis)
    requires forall c | c in before.claims :: InUnit(c.support)
    ensures a == Extended(before, claim, items, now)
    ensures forall c | c in a.claims :: InUnit(c.support)
  {
    var c := claim;
    var support := SupportFor(items, c.state, now);
    c := c.(support := support);
    var relations := before.relations;
    for i := 0 to |items|
      invariant c == claim.(support := support, evidence := claim.evidence + Ids(items[..i]))
      invariant relations == before.relations + Edges(claim, items[..i])
    {
      assert Ids(items[..i + 1]) == Ids(items[..i]) + [items[i].id];
      c := c.(evidence := c.evidence + [items[i].id]);
      var kind := if c.state.Contradicted? then Contradicts else Supports;
      assert Edges(claim, items[..i + 1])
             == Edges(claim, items[..i]) + [Relation("", items[i].id, claim.id, kind, claim.justification)];
      relations := relations + [Relation("", items[i].id, c.id, kind, c.justification)];
    }
    assert items[..|items|] == items;
    a := before.(claims := before.claims + [c], relations := relations);
    if c.critical && (c.state.Unsupported? || c.state.VerificationPending?) {
      a := a.(assumptions := a.assumptions + [Assumed(claim)], unknowns := a.unknowns + [Missing(claim)]);
    }
  }

  /** The whole analysis of a deployment review. */
  function RulesAnalysis(events: seq<Signs>, evidence: seq<Evidence>, terms: Terms, wording: Wording, now: int): Analysis {
    BoundAll(ClaimsFrom(wording, Seen(events)), AllBindings(evidence, terms), evidence, now)
  }

  method Analyze(events: seq<Signs>, evidence: seq<Evidence>, terms: Terms, wording: Wording, now: int) returns (a: Analysis)
    ensures a == RulesAnalysis(events, evidence, terms, wording, now)
    ensures forall c | c in a.claims :: InUnit(c.support)
  {
    var o := Observe(events);
    var claims := [ClaimOn(Build, wording, o), ClaimOn(Tests, wording, o), ClaimOn(Compatibility, wording, o),
                   ClaimOn(Privacy, wording, o), ClaimOn(Rollback, wording, o)];
    assert claims == ClaimsFrom(wording, o);
    var bindings := CollectBindings(evidence, terms);
    a := BindAll(claims, bindings, evidence, now);
  }

  // ---- What the verdict on such an analysis means

  /** Binding changes neither criticality nor state, and unknowns stand for open claims. */
  lemma {:induction false} BindingKeepsStates(claims: seq<Claim>, bindings: seq<seq<Evidence>>, evidence: seq<Evidence>, now: int)
    requires |bindings| == |claims|
    ensures var a := BoundAll(claims, bindings, evidence, now);
            && |a.claims| == |claims|
            && (forall i | 0 <= i < |claims| :: a.claims[i].critical == claims[i].critical && a.claims[i].state == claims[i].state)
            && (Policy.OpenCriticalUnknown(a.unknowns) ==> exists i | 0 <= i < |claims| :: Open(claims[i]))
  {
    hide Dedupe, Assumed, Edges, Missing;
    if claims != [] {
      var last := |claims| - 1;
      BindingKeepsStates(claims[..last], bindings[..last], evidence, now);
      var a, b := BoundAll(claims[..last], bindings[..last], evidence, now), BoundAll(claims, bindings, evidence, now);
      if Policy.OpenCriticalUnknown(b.unknowns) {
        if Policy.OpenCriticalUnknown(a.unknowns) {
          var i :| 0 <= i < last && Open(claims[..last][i]);
          assert Open(claims[i]);
        } else {
          assert Open(claims[last]);
        }
      }
    }
  }

  /** Support stays bounded. */
  lemma {:induction false} BoundSupportInUnit(claims: seq<Claim>, bindings: seq<seq<Evidence>>, evidence: seq<Evidence>, now: int)
    requires |bindings| == |claims|
    ensures forall c | c in BoundAll(claims, bindings, evidence, now).claims :: InUnit(c.support)
  {
    if claims != [] {
      var last := |claims| - 1;
      BoundSupportInUnit(claims[..last], bindings[..last], evidence, now);
      ScoreInUnit(Dedupe(bindings[last]), claims[last].state, now);
    }
  }

  /** Every one of the four critical topics was seen to pass and never to fail. */
  predicate AllGood(o: Observed) {
    && o.buildPass && !o.buildFail && o.unitPass && !o.unitFail
    && o.compatibilityPass && !o.compatibilityFail && o.privacyPass && !o.privacyLeak
  }

  /** Claims and unknowns that say what a rules analysis says, in the topics' order. */
  ghost predicate SaysOf(claims: seq<Claim>, unknowns: seq<Unknown>, o: Observed) {
    && |claims| == 5
    && (forall i | 0 <= i < 5 :: claims[i].critical == (i != 4) && claims[i].state == StateOf(TOPICS[i], o))
    && (Policy.OpenCriticalUnknown(unknowns) ==> exists i | 0 <= i < 4 :: StateOf(TOPICS[i], o).VerificationPending?)
  }

  lemma ClaimSays(wording: Wording, o: Observed, i: nat)
    requires i < 5
    ensures var c := ClaimsFrom(wording, o)[i];
            && c.critical == (i != 4) && c.state == StateOf(TOPICS[i], o)
            && (Open(c) ==> i < 4 && StateOf(TOPICS[i], o).VerificationPending?)
  {
    hide StateOf, Id;
    assert (TOPICS[i] == Rollback) == (i == 4);
    StateIsObserved(TOPICS[i], o);
  }

  lemma StateIsObserved(topic: Topic, o: Observed)
    ensures !StateOf(topic, o).Unsupported?
  {
  }

  lemma AnalysisSays(events: seq<Signs>, evidence: seq<Evidence>, terms: Terms, wording: Wording, now: int)
    ensures var a := RulesAnalysis(events, evidence, terms, wording, now); SaysOf(a.claims, a.unknowns, Seen(events))
  {
    hide BoundAll, ClaimOn, BindingsOf, StateOf, Seen, Policy.OpenCriticalUnknown, Open;
    var o := Seen(events);
    var claims := ClaimsFrom(wording, o);
    var a := BoundAll(claims, AllBindings(evidence, terms), evidence, now);
    BindingKeepsStates(claims, AllBindings(evidence, terms), evidence, now);
    forall i | 0 <= i < 5 ensures claims[i].critical == (i != 4) && claims[i].state == StateOf(TOPICS[i], o) {
      ClaimSays(wording, o, i);
    }
    if Policy.OpenCriticalUnknown(a.unknowns) {
      var i :| 0 <= i < |claims| && Open(claims[i]);
      ClaimSays(wording, o, i);
    }
  }

  /** On such claims the verdict is VERIFIED exactly when each critical topic has a passing
      observation and none has a failing one. */
  lemma SayingDecides(claims: seq<Claim>, unknowns: seq<Unknown>, o: Observed, approved: bool)
    requires SaysOf(claims, unknowns, o)
    ensures Policy.Judge(claims, unknowns, approved).verdict.Verified? <==> AllGood(o)
  {
    Policy.VerifiedExactly(claims, unknowns, approved);
    TopicStates(o);
    assert claims[0].critical && claims[1].critical && claims[2].critical && claims[3].critical;
    assert Policy.Gates(claims, unknowns) ==>
             && Policy.Passing(claims[0].state) && Policy.Passing(claims[1].state)
             && Policy.Passing(claims[2].state) && Policy.Passing(claims[3].state);
    assert AllGood(o) ==> forall i | 0 <= i < 5 && claims[i].critical :: claims[i].state.Supported?;
    assert AllGood(o) ==> forall i | 0 <= i < 5 :: !claims[i].state.Contradicted? && !claims[i].state.Rejected?;
  }

  lemma TopicStates(o: Observed)
    ensures StateOf(TOPICS[0], o) == ObservedState(o.buildPass, o.buildFail)
    ensures StateOf(TOPICS[1], o) == ObservedState(o.unitPass, o.unitFail)
    ensures StateOf(TOPICS[2], o) == ObservedState(o.compatibilityPass, o.compatibilityFail)
    ensures StateOf(TOPICS[3], o) == ObservedState(o.privacyPass, o.privacyLeak)
    ensures StateOf(TOPICS[4], o) == ObservedState(o.rollbackReady, false)
  {
  }
}
