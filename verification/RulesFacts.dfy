/** What the deployment rules make of a run, topic by topic, in terms of the searches' results
    and the evidence alone. */
module RulesFacts {
  import opened Text
  import opened Domain
  import opened Selection
  import opened SupportScore
  import opened Rules
  import opened ReviewFacts

  // ---- What was observed

  /** An event speaks for the topic, or against it. */
  ghost predicate Speaks(topic: nat, s: Signs) {
    || (topic == 0 && s.build && s.passed)
    || (topic == 1 && s.test && !s.compatibility && !s.privacy && s.passed)
    || (topic == 2 && s.compatibility && s.passed)
    || (topic == 3 && s.privacy && s.test && s.passed)
    || (topic == 4 && s.rollback && (s.passed || s.ready))
  }

  ghost predicate SpeaksAgainst(topic: nat, s: Signs) {
    || (topic == 0 && s.build && s.failed)
    || (topic == 1 && s.test && !s.compatibility && !s.privacy && s.failed)
    || (topic == 2 && s.compatibility && s.failed)
    || (topic == 3 && s.leak)
  }

  ghost predicate SomeSpeak(events: seq<Signs>, topic: nat) {
    exists i | 0 <= i < |events| :: Speaks(topic, events[i])
  }

  ghost predicate SomeSpeakAgainst(events: seq<Signs>, topic: nat) {
    exists i | 0 <= i < |events| :: SpeaksAgainst(topic, events[i])
  }

  /** One voice against contradicts; else one voice for supports; silence leaves pending. */
  ghost predicate TopicState(events: seq<Signs>, topic: nat, state: ClaimState) {
    && (SomeSpeakAgainst(events, topic) ==> state == ClaimState.Contradicted)
    && (!SomeSpeakAgainst(events, topic) && SomeSpeak(events, topic) ==> state == ClaimState.Supported)
    && (!SomeSpeakAgainst(events, topic) && !SomeSpeak(events, topic) ==> state == VerificationPending)
  }

  lemma SeenSpeaks(events: seq<Signs>)
    ensures var o := Seen(events);
            && (o.buildPass <==> SomeSpeak(events, 0)) && (o.buildFail <==> SomeSpeakAgainst(events, 0))
            && (o.unitPass <==> SomeSpeak(events, 1)) && (o.unitFail <==> SomeSpeakAgainst(events, 1))
            && (o.compatibilityPass <==> SomeSpeak(events, 2)) && (o.compatibilityFail <==> SomeSpeakAgainst(events, 2))
            && (o.privacyPass <==> SomeSpeak(events, 3)) && (o.privacyLeak <==> SomeSpeakAgainst(events, 3))
            && (o.rollbackReady <==> SomeSpeak(events, 4)) && !SomeSpeakAgainst(events, 4)
  {
    hide Any, SomeSpeak, SomeSpeakAgainst;
    AnySpeaks(events, BuildPass, 0);
    AnySpeaks(events, UnitPass, 1);
    AnySpeaks(events, CompatibilityPass, 2);
    AnySpeaks(events, PrivacyPass, 3);
    AnySpeaks(events, RollbackReady, 4);
    AnySpeaksAgainst(events, BuildFail, 0);
    AnySpeaksAgainst(events, UnitFail, 1);
    AnySpeaksAgainst(events, CompatibilityFail, 2);
    AnySpeaksAgainst(events, PrivacyLeak, 3);
    NothingAgainstRollback(events);
  }

  lemma AnySpeaks(events: seq<Signs>, pick: Signs -> bool, topic: nat)
    requires forall s :: pick(s) <==> Speaks(topic, s)
    ensures Any(events, pick) <==> SomeSpeak(events, topic)
  {
    hide Speaks;
  }

  lemma AnySpeaksAgainst(events: seq<Signs>, pick: Signs -> bool, topic: nat)
    requires forall s :: pick(s) <==> SpeaksAgainst(topic, s)
    ensures Any(events, pick) <==> SomeSpeakAgainst(events, topic)
  {
    hide SpeaksAgainst;
  }

  lemma NothingAgainstRollback(events: seq<Signs>)
    ensures !SomeSpeakAgainst(events, 4)
  {
  }

  // ---- Which evidence was found

  ghost function PickedHere(items: seq<Evidence>, pick: Evidence -> bool): nat -> bool {
    (i: nat) => i < |items| && pick(items[i])
  }

  ghost predicate PickedFrom(found: seq<Evidence>, items: seq<Evidence>, pick: Evidence -> bool) {
    exists at: seq<nat> ::
      && Selects(at, |items|, PickedHere(items, pick)) && |found| == |at|
      && forall k | 0 <= k < |at| :: at[k] < |items| && found[k] == items[at[k]]
  }

  lemma {:induction false} FilteredSelected(items: seq<Evidence>, n: nat, pick: Evidence -> bool) returns (at: seq<nat>)
    requires n <= |items|
    ensures Selects(at, n, PickedHere(items, pick)) && |Filtered(items[..n], pick)| == |at|
    ensures forall k | 0 <= k < |at| :: at[k] < |items| && Filtered(items[..n], pick)[k] == items[at[k]]
  {
    if n == 0 {
      at := [];
    } else {
      var front := FilteredSelected(items, n - 1, pick);
      at := OneMoreSelected(front, n - 1, PickedHere(items, pick));
      assert items[..n][..n - 1] == items[..n - 1];
    }
  }

  /** The loop of `filterEvidence` keeps the items that pass, in order. */
  lemma FilteredIsPicked(items: seq<Evidence>, pick: Evidence -> bool)
    ensures PickedFrom(Filtered(items, pick), items, pick)
  {
    hide Filtered;
    var at := FilteredSelected(items, |items|, pick);
    assert items[..|items|] == items;
  }

  ghost function KindIs(kind: string): Evidence -> bool { (e: Evidence) => e.kind == kind }
  ghost function TermIn(terms: Terms, topic: Topic): Evidence -> bool { (e: Evidence) => terms(topic, e) }

  ghost predicate FoundFor(topic: nat, found: seq<Evidence>, items: seq<Evidence>, terms: Terms) {
    && (topic == 0 ==> PickedFrom(found, items, KindIs("build_result")))
    && (topic == 1 ==> PickedFrom(found, items, KindIs("test_result")))
    && (topic == 2 ==> exists a, b :: found == a + b && PickedFrom(a, items, KindIs("migration"))
                                      && PickedFrom(b, items, TermIn(terms, Compatibility)))
    && (topic == 3 ==> PickedFrom(found, items, TermIn(terms, Privacy)))
    && (topic == 4 ==> PickedFrom(found, items, TermIn(terms, Rollback)))
  }

  lemma KindIsPicked(items: seq<Evidence>, kind: string)
    ensures PickedFrom(OfKind(items, kind), items, KindIs(kind))
  {
    hide PickedFrom;
    FilteredIsPicked(items, KindIs(kind));
    SamePick(items, (e: Evidence) => e.kind == kind, KindIs(kind));
  }

  lemma TermIsPicked(items: seq<Evidence>, topic: Topic, terms: Terms)
    ensures PickedFrom(WithTerms(items, topic, terms), items, TermIn(terms, topic))
  {
    hide PickedFrom;
    FilteredIsPicked(items, TermIn(terms, topic));
    SamePick(items, (e: Evidence) => terms(topic, e), TermIn(terms, topic));
  }

  lemma {:induction false} SamePick(items: seq<Evidence>, p: Evidence -> bool, q: Evidence -> bool)
    requires forall e :: p(e) <==> q(e)
    ensures Filtered(items, p) == Filtered(items, q)
  {
    if items != [] {
      SamePick(items[..|items| - 1], p, q);
    }
  }

  lemma BindingsAreFound(items: seq<Evidence>, terms: Terms, i: nat)
    requires i < 5
    ensures FoundFor(i, AllBindings(items, terms)[i], items, terms)
  {
    hide PickedFrom, OfKind, WithTerms;
    KindIsPicked(items, "build_result");
    KindIsPicked(items, "test_result");
    KindIsPicked(items, "migration");
    TermIsPicked(items, Compatibility, terms);
    TermIsPicked(items, Privacy, terms);
    TermIsPicked(items, Rollback, terms);
  }

  // ---- The analysis

  ghost predicate TopicClaim(c: Claim, topic: nat, events: seq<Signs>, bound: seq<Evidence>, words: Words, now: int) {
    && (topic == 0 ==> c.id == "claim_build") && (topic == 1 ==> c.id == "claim_tests")
    && (topic == 2 ==> c.id == "claim_compatibility") && (topic == 3 ==> c.id == "claim_privacy")
    && (topic == 4 ==> c.id == "claim_rollback")
    && (c.critical <==> topic < 4) && c.importance == (if topic < 4 then "critical" else "supporting")
    && TopicState(events, topic, c.state)
    && c.decision == "" && c.createdAt == 0 && c.statement == words.statement && c.scope == words.scope
    && c.required == words.required && c.justification == words.justification
    && Scores(c.support, bound, c.state, now)
    && |c.evidence| == |bound| && forall k | 0 <= k < |bound| :: c.evidence[k] == bound[k].id
  }

  ghost predicate EdgesSay(edges: seq<Relation>, c: Claim, bound: seq<Evidence>) {
    && |edges| == |bound|
    && forall k | 0 <= k < |bound| ::
         && edges[k].id == "" && edges[k].from == bound[k].id && edges[k].to == c.id && edges[k].rationale == c.justification
         && edges[k].kind == if c.state.Contradicted? then RelationType.Contradicts else RelationType.Supports
  }

  ghost function PendingHere(claims: seq<Claim>): nat -> bool {
    (i: nat) => i < |claims| && claims[i].critical && (claims[i].state.VerificationPending? || claims[i].state.Unsupported?)
  }

  /** An assumption and an open critical unknown for each critical pending topic, in order. */
  ghost predicate PendingSay(a: Analysis) {
    exists at: seq<nat> ::
      && Selects(at, |a.claims|, PendingHere(a.claims)) && |a.assumptions| == |at| && |a.unknowns| == |at|
      && forall k | 0 <= k < |at| ::
           && at[k] < |a.claims|
           && (var c := a.claims[at[k]];
               && a.assumptions[k] == Assumption("", "", c.id, "Required evidence is assumed but not present: " + JoinComma(c.required),
                                                 true, "open", "blocks_deployment")
               && a.unknowns[k] == Unknown("", "", "What direct evidence verifies: " + c.statement, true, false))
  }

  /** The claims, with their evidence, stand in the claims' order. */
  lemma {:induction false} EachIsBound(claims: seq<Claim>, bindings: seq<seq<Evidence>>, evidence: seq<Evidence>, now: int)
    requires |bindings| == |claims|
    ensures var a := BoundAll(claims, bindings, evidence, now);
            && a.evidence == evidence && |a.claims| == |claims|
            && forall i | 0 <= i < |claims| :: a.claims[i] == Bound(claims[i], Dedupe(bindings[i]), now)
  {
    hide Bound, Dedupe;
    if claims != [] {
      var last := |claims| - 1;
      EachIsBound(claims[..last], bindings[..last], evidence, now);
    }
  }

  lemma {:induction false} PendingSelected(claims: seq<Claim>, bindings: seq<seq<Evidence>>, evidence: seq<Evidence>, now: int, n: nat)
      returns (at: seq<nat>)
    requires |bindings| == |claims| && n <= |claims|
    ensures var a := BoundAll(claims[..n], bindings[..n], evidence, now);
            && Selects(at, n, PendingHere(claims)) && |a.assumptions| == |at| && |a.unknowns| == |at|
            && forall k | 0 <= k < |at| ::
                 at[k] < |claims| && a.assumptions[k] == Assumed(claims[at[k]]) && a.unknowns[k] == Missing(claims[at[k]])
  {
    hide Assumed, Missing, Dedupe, Edges, Rules.Bound;
    if n == 0 {
      at := [];
    } else {
      var front := PendingSelected(claims, bindings, evidence, now, n - 1);
      at := OneMoreSelected(front, n - 1, PendingHere(claims));
      BoundOneMore(claims, bindings, evidence, now, n - 1);
    }
  }

  lemma PendingIsSaid(claims: seq<Claim>, bindings: seq<seq<Evidence>>, evidence: seq<Evidence>, now: int)
    requires |bindings| == |claims|
    ensures PendingSay(BoundAll(claims, bindings, evidence, now))
  {
    hide BoundAll, Dedupe, Score, JoinComma;
    var a := BoundAll(claims, bindings, evidence, now);
    EachIsBound(claims, bindings, evidence, now);
    var at := PendingSelected(claims, bindings, evidence, now, |claims|);
    assert claims[..|claims|] == claims && bindings[..|claims|] == bindings;
    assert forall i: nat :: PendingHere(a.claims)(i) <==> PendingHere(claims)(i);
    assert Selects(at, |a.claims|, PendingHere(a.claims));
  }

  lemma EdgesInOrder(claims: seq<Claim>, bindings: seq<seq<Evidence>>, evidence: seq<Evidence>, now: int)
    requires |bindings| == |claims| == 5
    ensures BoundAll(claims, bindings, evidence, now).relations
            == Edges(claims[0], Dedupe(bindings[0])) + Edges(claims[1], Dedupe(bindings[1])) + Edges(claims[2], Dedupe(bindings[2]))
               + Edges(claims[3], Dedupe(bindings[3])) + Edges(claims[4], Dedupe(bindings[4]))
  {
    hide Edges, Dedupe, BoundAll;
    NothingBound(evidence, now);
    assert claims[..0] == [] && bindings[..0] == [] && claims[..5] == claims && bindings[..5] == bindings;
    OneMoreEdges(claims, bindings, evidence, now, 0);
    OneMoreEdges(claims, bindings, evidence, now, 1);
    OneMoreEdges(claims, bindings, evidence, now, 2);
    OneMoreEdges(claims, bindings, evidence, now, 3);
    OneMoreEdges(claims, bindings, evidence, now, 4);
  }

  lemma NothingBound(evidence: seq<Evidence>, now: int)
    ensures BoundAll([], [], evidence, now) == Analysis([], evidence, [], [], [])
  {
  }

  lemma OneMoreEdges(claims: seq<Claim>, bindings: seq<seq<Evidence>>, evidence: seq<Evidence>, now: int, i: nat)
    requires |bindings| == |claims| && i < |claims|
    ensures BoundAll(claims[..i + 1], bindings[..i + 1], evidence, now).relations
            == BoundAll(claims[..i], bindings[..i], evidence, now).relations + Edges(claims[i], Dedupe(bindings[i]))
  {
    hide Edges, Dedupe, BoundAll;
    BoundOneMore(claims, bindings, evidence, now, i);
  }

  lemma TopicIsSaid(events: seq<Signs>, wording: Wording, found: seq<Evidence>, now: int, i: nat)
    requires i < 5
    ensures var c := ClaimsFrom(wording, Seen(events))[i];
            && TopicClaim(Rules.Bound(c, Dedupe(found), now), i, events, Dedupe(found), wording(TOPICS[i]), now)
            && EdgesSay(Edges(c, Dedupe(found)), Rules.Bound(c, Dedupe(found), now), Dedupe(found))
  {
    hide Dedupe, Score, Scores, Seen, SomeSpeak, SomeSpeakAgainst;
    SeenSpeaks(events);
    ScoredExactly(Dedupe(found), StateOf(TOPICS[i], Seen(events)), now);
    assert TOPICS[i] == Rollback <==> i == 4;
  }

  /** Five claims in the topics' order, each decided by the events and bound to its evidence,
      each item once; one relation per item; the pending critical ones are open questions. */
  lemma RulesSay(events: seq<Signs>, evidence: seq<Evidence>, terms: Terms, wording: Wording, now: int)
      returns (found: seq<seq<Evidence>>, bound: seq<seq<Evidence>>, edges: seq<seq<Relation>>)
    ensures var a := RulesAnalysis(events, evidence, terms, wording, now);
            && a.evidence == evidence && |a.claims| == 5 && |found| == 5 && |bound| == 5 && |edges| == 5
            && (forall i: nat | i < 5 ::
                  && FoundFor(i, found[i], evidence, terms) && FirstsOf(bound[i], found[i])
                  && TopicClaim(a.claims[i], i, events, bound[i], wording(TOPICS[i]), now)
                  && EdgesSay(edges[i], a.claims[i], bound[i]))
            && a.relations == edges[0] + edges[1] + edges[2] + edges[3] + edges[4]
            && PendingSay(a)
  {
    hide FoundFor, FirstsOf, TopicClaim, EdgesSay, PendingSay, Dedupe, Seen, BoundAll, Rules.Bound, ClaimOn, BindingsOf, Edges;
    var claims := ClaimsFrom(wording, Seen(events));
    found := AllBindings(evidence, terms);
    bound := seq(5, i requires 0 <= i < 5 => Dedupe(found[i]));
    edges := seq(5, i requires 0 <= i < 5 => Edges(claims[i], Dedupe(found[i])));
    EachIsBound(claims, found, evidence, now);
    EdgesInOrder(claims, found, evidence, now);
    PendingIsSaid(claims, found, evidence, now);
    forall i: nat | i < 5
      ensures FoundFor(i, found[i], evidence, terms) && FirstsOf(bound[i], found[i])
      ensures TopicClaim(Rules.Bound(claims[i], bound[i], now), i, events, bound[i], wording(TOPICS[i]), now)
      ensures EdgesSay(edges[i], Rules.Bound(claims[i], bound[i], now), bound[i])
    {
      BindingsAreFound(evidence, terms, i);
      DedupeKeepsFirsts(found[i]);
      TopicIsSaid(events, wording, found[i], now, i);
    }
  }

  /** The deployment verdict's condition: for each critical topic some event speaks for it and
      none against. */
  lemma AllGoodSpeaks(events: seq<Signs>)
    ensures AllGood(Seen(events)) <==> forall topic: nat | topic < 4 :: SomeSpeak(events, topic) && !SomeSpeakAgainst(events, topic)
  {
    hide Seen, SomeSpeak, SomeSpeakAgainst;
    SeenSpeaks(events);
    if AllGood(Seen(events)) {
      forall topic: nat | topic < 4 ensures SomeSpeak(events, topic) && !SomeSpeakAgainst(events, topic) {
        assert topic == 0 || topic == 1 || topic == 2 || topic == 3;
      }
    }
  }
}
