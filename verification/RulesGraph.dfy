/** The analysis of a deployment review is closed too, so it can be relabelled, saved and
    read back; but it may propose no relation, and then the service binds a claim itself. */
module RulesGraph {
  import opened Text
  import opened Domain
  import opened Store
  import opened Relabel
  import opened Rules
  import Projection
  import Review
  import ReviewGraph
  import RunHistory
  import SupportScore

  type Reader = Review.Reader

  function SignsOf(run: Run, read: Event -> Signs): seq<Signs> {
    seq(|run.events|, i requires 0 <= i < |run.events| => read(run.events[i]))
  }

  /** The analysis of a run. */
  function Analysed(run: Run, read: Event -> Signs, reader: Reader, terms: Terms, wording: Wording, made: int): Analysis {
    RulesAnalysis(SignsOf(run, read), Review.EvidenceFromEvents(run, reader), terms, wording, made)
  }

  // ---- References stay inside

  lemma BindingsAreStored(topic: Topic, items: seq<Evidence>, terms: Terms)
    ensures forall e | e in BindingsOf(topic, items, terms) :: e in items
  {
    FilteredItems(items, (e: Evidence) => e.kind == "build_result");
    FilteredItems(items, (e: Evidence) => e.kind == "test_result");
    FilteredItems(items, (e: Evidence) => e.kind == "migration");
    FilteredItems(items, (e: Evidence) => terms(topic, e));
  }

  ghost predicate AllStored(items: seq<Evidence>, evidence: seq<Evidence>) {
    forall e | e in items :: e in evidence
  }

  lemma ExtendedStaysInside(a: Analysis, c: Claim, items: seq<Evidence>, evidence: seq<Evidence>, now: int)
    requires ReviewGraph.Inside(a, evidence) && c.evidence == [] && AllStored(items, evidence)
    ensures ReviewGraph.Inside(Extended(a, c, items, now), evidence)
  {
    var b := Extended(a, c, items, now);
    ReviewGraph.ClaimsGrow(a.claims, Rules.Bound(c, items, now));
    forall k | 0 <= k < |items| ensures ReviewGraph.HasEvidence(evidence, items[k].id) {
      assert items[k] in evidence;
      var i :| 0 <= i < |evidence| && evidence[i] == items[k];
      assert EvidenceId(evidence[i]) == items[k].id;
    }
    forall r | r in b.relations ensures r.id == "" && ReviewGraph.HasEvidence(evidence, r.from) && ReviewGraph.HasClaim(b.claims, r.to) {
      if r !in a.relations {
        var k :| 0 <= k < |items| && Edges(c, items)[k] == r;
      }
    }
  }

  lemma DedupedIsStored(items: seq<Evidence>, evidence: seq<Evidence>)
    requires AllStored(items, evidence)
    ensures AllStored(SupportScore.Dedupe(items), evidence)
  {
    SupportScore.DedupeKeepsEachIdOnce(items);
  }

  lemma NothingIsInside(evidence: seq<Evidence>)
    ensures ReviewGraph.Inside(Analysis([], evidence, [], [], []), evidence)
  {
  }

  lemma {:induction false} BoundStaysInside(claims: seq<Claim>, bindings: seq<seq<Evidence>>, evidence: seq<Evidence>, now: int)
    requires |bindings| == |claims|
    requires forall i | 0 <= i < |claims| :: claims[i].evidence == [] && AllStored(bindings[i], evidence)
    ensures var a := BoundAll(claims, bindings, evidence, now);
            && ReviewGraph.Inside(a, evidence) && a.evidence == evidence && |a.claims| == |claims|
            && forall i | 0 <= i < |claims| :: a.claims[i].id == claims[i].id
  {
    hide ReviewGraph.Inside, AllStored, SupportScore.Score;
    if claims == [] {
      NothingIsInside(evidence);
    } else {
      var last := |claims| - 1;
      BoundStaysInside(claims[..last], bindings[..last], evidence, now);
      DedupedIsStored(bindings[last], evidence);
      ExtendedStaysInside(BoundAll(claims[..last], bindings[..last], evidence, now), claims[last],
                          SupportScore.Dedupe(bindings[last]), evidence, now);
    }
  }

  // ---- Distinct original IDs, none of them drawn

  /** The third character tells evidence and claims of this analyzer from drawn IDs. */
  ghost predicate Marked(id: string, mark: char) {
    |id| > 2 && id[2] == mark
  }

  lemma TopicMarked(topic: Topic)
    ensures Marked(Id(topic), 'a')
  {
  }

  lemma TopicsDiffer(i: nat, j: nat)
    requires i < j < 5
    ensures Id(TOPICS[i]) != Id(TOPICS[j])
  {
    assert Id(Build)[6] == 'b' && Id(Tests)[6] == 't' && Id(Compatibility)[6] == 'c' && Id(Privacy)[6] == 'p' && Id(Rollback)[6] == 'r';
  }

  lemma EvidenceMarked(e: Event, run: string, reader: Reader)
    ensures Marked(Review.EvidenceOf(e, run, reader).id, 'i')
  {
  }

  ghost predicate AllMarked(a: Analysis) {
    && (forall i | 0 <= i < |a.evidence| :: Marked(a.evidence[i].id, 'i'))
    && (forall j | 0 <= j < |a.claims| :: Marked(a.claims[j].id, 'a'))
  }

  lemma MarkedIsUndrawn(a: Analysis, n: nat)
    requires AllMarked(a)
    ensures Undrawn(a, n)
  {
    forall m: nat | n <= m ensures Unused(a, NewId("evd", m)) && Unused(a, NewId("clm", m)) {
      assert NewId("evd", m)[2] == 'd' && NewId("clm", m)[2] == 'm';
    }
  }

  /** What the analysis is made of. */
  lemma AnalysedParts(run: Run, read: Event -> Signs, reader: Reader, terms: Terms, wording: Wording, made: int)
    ensures var p := Analysed(run, read, reader, terms, wording, made);
            && ReviewGraph.Inside(p, p.evidence) && p.evidence == Review.EvidenceFromEvents(run, reader)
            && |p.claims| == 5 && forall i | 0 <= i < 5 :: p.claims[i].id == Id(TOPICS[i])
  {
    var evidence := Review.EvidenceFromEvents(run, reader);
    var o := Seen(SignsOf(run, read));
    var claims, bindings := ClaimsFrom(wording, o), AllBindings(evidence, terms);
    forall i | 0 <= i < 5 ensures claims[i].evidence == [] && claims[i].id == Id(TOPICS[i]) && AllStored(bindings[i], evidence) {
      BindingsAreStored(TOPICS[i], evidence, terms);
    }
    BoundStaysInside(claims, bindings, evidence, made);
  }

  lemma AnalysedIds(run: Run, read: Event -> Signs, reader: Reader, terms: Terms, wording: Wording, made: int)
    requires Review.DistinctEvidence(run, reader)
    ensures var p := Analysed(run, read, reader, terms, wording, made); DistinctOriginals(p) && AllMarked(p)
  {
    var p := Analysed(run, read, reader, terms, wording, made);
    AnalysedParts(run, read, reader, terms, wording, made);
    forall i | 0 <= i < |p.evidence| ensures Marked(p.evidence[i].id, 'i') {
      EvidenceMarked(run.events[i], run.id, reader);
    }
    forall j | 0 <= j < 5 ensures Marked(p.claims[j].id, 'a') {
      TopicMarked(TOPICS[j]);
    }
    forall i, j | 0 <= i < j < 5 ensures p.claims[i].id != p.claims[j].id {
      TopicsDiffer(i, j);
    }
    MarkedAndDistinct(p);
  }

  lemma MarkedAndDistinct(p: Analysis)
    requires AllMarked(p) && DistinctKeys(p.evidence, EvidenceId)
    requires forall i, j | 0 <= i < j < |p.claims| :: p.claims[i].id != p.claims[j].id
    ensures DistinctOriginals(p)
  {
  }

  /** A deployment review owes nothing either: whatever the service binds, no reference of
      the relabelled analysis dangles and the store's graph stays in order. */
  lemma RulesAreSound(run: Run, read: Event -> Signs, reader: Reader, terms: Terms, wording: Wording, made: int, n: nat, now: int,
                      d: string, stored: map<string, Relation>)
    requires Review.DistinctEvidence(run, reader)
    ensures var p := Analysed(run, read, reader, terms, wording, made);
            var b := Relabelled(p, n, now, d);
            && Projection.Sound(p, b, run.id, stored)
            && (Isomorphic(p, b, id => Mapped(IdMap(p, n), id)) <==> AutoBound(p).None?)
  {
    hide BoundAll, Closed, Isomorphic, DistinctOriginals, AllMarked, Undrawn, Relabelled, RulesAnalysis, AutoBound;
    var p := Analysed(run, read, reader, terms, wording, made);
    AnalysedParts(run, read, reader, terms, wording, made);
    AnalysedIds(run, read, reader, terms, wording, made);
    ReviewGraph.InsideIsClosed(p);
    MarkedIsUndrawn(p, n);
    RelabelledIsClosed(p, n, now, d);
    RelabellingPreservesTheGraph(p, n, now, d);
    forall k | 0 <= k < |p.relations| ensures p.relations[k].id == "" {
      assert p.relations[k] in p.relations;
    }
  }

  /** And every claim of it is scored in bounds. */
  lemma RulesAreBounded(run: Run, read: Event -> Signs, reader: Reader, terms: Terms, wording: Wording, made: int)
    ensures RunHistory.Bounded(Analysed(run, read, reader, terms, wording, made))
  {
    hide BoundAll, SupportScore.InUnit;
    var evidence := Review.EvidenceFromEvents(run, reader);
    BoundSupportInUnit(ClaimsFrom(wording, Seen(SignsOf(run, read))), AllBindings(evidence, terms), evidence, made);
  }

  // ---- When the service binds a claim itself

  lemma {:induction false} RelationsOnlyFromBindings(claims: seq<Claim>, bindings: seq<seq<Evidence>>, evidence: seq<Evidence>, now: int)
    requires |bindings| == |claims|
    ensures BoundAll(claims, bindings, evidence, now).relations == [] <==> forall i | 0 <= i < |bindings| :: bindings[i] == []
  {
    if claims != [] {
      var last := |claims| - 1;
      RelationsOnlyFromBindings(claims[..last], bindings[..last], evidence, now);
      var a, items := BoundAll(claims[..last], bindings[..last], evidence, now), SupportScore.Dedupe(bindings[last]);
      SomethingStays(bindings[last]);
      assert BoundAll(claims, bindings, evidence, now).relations == a.relations + Edges(claims[last], items);
    }
  }

  lemma SomethingStays(items: seq<Evidence>)
    ensures SupportScore.Dedupe(items) == [] <==> items == []
  {
    SupportScore.DedupeKeepsEachIdOnce(items);
    if items != [] {
      assert SupportScore.HasId(items, items[0].id);
    }
  }

  predicate Conclusive(topic: Topic, o: Observed) {
    StateOf(topic, o).Supported? || StateOf(topic, o).Contradicted?
  }

  /** Exactly when the analyzer found evidence and bound none of it, but decided some topic,
      the service binds all evidence to the first claim decided. */
  lemma WhenTheServiceBinds(run: Run, read: Event -> Signs, reader: Reader, terms: Terms, wording: Wording, made: int)
    ensures var evidence := Review.EvidenceFromEvents(run, reader);
            AutoBound(Analysed(run, read, reader, terms, wording, made)).Some? <==>
              && run.events != []
              && (forall i | 0 <= i < 5 :: BindingsOf(TOPICS[i], evidence, terms) == [])
              && exists i | 0 <= i < 5 :: Conclusive(TOPICS[i], Seen(SignsOf(run, read)))
  {
    var evidence, events := Review.EvidenceFromEvents(run, reader), SignsOf(run, read);
    var p, o := Analysed(run, read, reader, terms, wording, made), Seen(events);
    AnalysedParts(run, read, reader, terms, wording, made);
    RelationsOnlyFromBindings(ClaimsFrom(wording, o), AllBindings(evidence, terms), evidence, made);
    AnalysisSays(events, evidence, terms, wording, made);
    forall i | 0 <= i < 5 ensures AllBindings(evidence, terms)[i] == BindingsOf(TOPICS[i], evidence, terms) {
    }
    forall i | 0 <= i < 5 ensures Decided(p.claims[i]) <==> Conclusive(TOPICS[i], o) {
    }
  }

  /** It happens: one event that says a build passed, filed as evidence of another kind, and
      no term found. The graph saved has an edge the analyzer never proposed. */
  lemma BuildReportOfAnotherKind(run: Run, read: Event -> Signs, reader: Reader, terms: Terms, wording: Wording, made: int, n: nat,
                                 now: int, d: string, stored: map<string, Relation>)
    requires forall topic, e :: !terms(topic, e)
    requires |run.events| == 1 && reader.kind(run.events[0].kind, run.events[0].payload) == "custom"
    requires read(run.events[0]) == Signs(true, false, false, false, false, true, false, false, false)
    ensures var p := Analysed(run, read, reader, terms, wording, made);
            var b := Relabelled(p, n, now, d);
            && AutoBound(p).Some? && p.relations == [] && |b.relations| == 1
            && !Isomorphic(p, b, id => Mapped(IdMap(p, n), id)) && Projection.Sound(p, b, run.id, stored)
  {
    hide BoundAll, Isomorphic, RulesAnalysis, AutoBound, BindingsOf, Projection.Sound;
    var evidence := Review.EvidenceFromEvents(run, reader);
    BuildSeen(run, read);
    forall i | 0 <= i < 5 ensures BindingsOf(TOPICS[i], evidence, terms) == [] {
      NothingBound(TOPICS[i], evidence, terms);
    }
    WhenTheServiceBinds(run, read, reader, terms, wording, made);
    RulesAreSound(run, read, reader, terms, wording, made, n, now, d, stored);
    AnalysedParts(run, read, reader, terms, wording, made);
    AutomaticEdges(Analysed(run, read, reader, terms, wording, made), n, now, d);
  }

  lemma BuildSeen(run: Run, read: Event -> Signs)
    requires |run.events| == 1 && BuildPass(read(run.events[0]))
    ensures Conclusive(TOPICS[0], Seen(SignsOf(run, read)))
  {
    assert BuildPass(SignsOf(run, read)[0]);
  }

  lemma AutomaticEdges(p: Analysis, n: nat, now: int, d: string)
    requires AutoBound(p).Some?
    ensures p.relations == [] && |Relabelled(p, n, now, d).relations| == |p.evidence|
  {
  }

  lemma {:induction false} NothingPicked(items: seq<Evidence>, pick: Evidence -> bool)
    requires forall e | e in items :: !pick(e)
    ensures Filtered(items, pick) == []
  {
    if items != [] {
      NothingPicked(items[..|items| - 1], pick);
    }
  }

  lemma NothingBound(topic: Topic, items: seq<Evidence>, terms: Terms)
    requires forall e | e in items :: e.kind == "custom" && !terms(topic, e)
    ensures BindingsOf(topic, items, terms) == []
  {
    assert |"custom"| == 6 && |"build_result"| == 12 && |"test_result"| == 11 && |"migration"| == 9;
    match topic
    case Build => NothingPicked(items, (e: Evidence) => e.kind == "build_result");
    case Tests => NothingPicked(items, (e: Evidence) => e.kind == "test_result");
    case Compatibility =>
      NothingPicked(items, (e: Evidence) => e.kind == "migration");
      NothingPicked(items, (e: Evidence) => terms(topic, e));
    case _ => NothingPicked(items, (e: Evidence) => terms(topic, e));
  }
}
