/** The analysis of a code-change review is closed: every reference stays inside it, so it
    can be relabelled, saved and read back without loss. */
module ReviewGraph {
  import opened Text
  import opened Domain
  import opened Store
  import opened Review
  import opened Relabel
  import RunHistory
  import SupportScore
  import Projection

  ghost predicate HasEvidence(evidence: seq<Evidence>, id: string) { HasKey(evidence, EvidenceId, id) }
  ghost predicate HasClaim(claims: seq<Claim>, id: string) { HasKey(claims, ClaimId, id) }

  /** The parts of `Closed`, and blank relation IDs. */
  ghost predicate Inside(a: Analysis, evidence: seq<Evidence>) {
    && (forall r | r in a.relations :: r.id == "" && HasEvidence(evidence, r.from) && HasClaim(a.claims, r.to))
    && (forall c, id | c in a.claims && id in c.evidence :: HasEvidence(evidence, id))
    && (forall x | x in a.assumptions :: HasClaim(a.claims, x.claim))
  }

  /** A claim is bound to stored evidence only, and carries its IDs. */
  ghost predicate BoundInside(claim: Claim, bound: seq<Evidence>, evidence: seq<Evidence>) {
    && (forall e | e in bound :: HasEvidence(evidence, e.id))
    && (forall id | id in claim.evidence :: HasEvidence(evidence, id))
  }

  lemma ClaimsGrow(claims: seq<Claim>, claim: Claim)
    ensures forall id :: HasClaim(claims + [claim], id) <==> HasClaim(claims, id) || id == claim.id
  {
    forall id ensures HasClaim(claims + [claim], id) <==> HasClaim(claims, id) || id == claim.id {
      HasKeyOfOneMore(claims, claim, ClaimId, id);
      assert ClaimId(claim) == claim.id;
    }
  }

  lemma ExtendedStaysInside(a: Analysis, r: Requirement, claim: Claim, bound: seq<Evidence>, declaration: string, evidence: seq<Evidence>)
    requires Inside(a, evidence) && BoundInside(claim, bound, evidence)
    ensures Inside(Extended(a, r, claim, bound, declaration), evidence)
  {
    ClaimsGrow(a.claims, claim);
    var b := Extended(a, r, claim, bound, declaration);
    forall x | x in b.relations ensures x.id == "" && HasEvidence(evidence, x.from) && HasClaim(b.claims, x.to) {
      if x !in a.relations {
        var k :| 0 <= k < |bound| && BindingOf(bound[k], claim, declaration) == x;
        assert bound[k] in bound;
      }
    }
  }

  lemma {:induction false} FoldedStaysInside(list: seq<Requirement>, evidence: seq<Evidence>, views: Views)
    requires forall i | 0 <= i < |list| :: BoundInside(views.claim(list[i], i), views.bound(list[i]), evidence)
    ensures Inside(Folded(list, evidence, views), evidence)
  {
    if list != [] {
      var last := |list| - 1;
      FoldedStaysInside(list[..last], evidence, views);
      ExtendedStaysInside(Folded(list[..last], evidence, views), list[last], views.claim(list[last], last), views.bound(list[last]),
                          views.declaration, evidence);
    }
  }

  // ---- What a requirement is bound to

  lemma FromEventIsEvidence(e: Evidence, run: Run, reader: Reader)
    requires FromEvent(e, run, reader)
    ensures HasEvidence(EvidenceFromEvents(run, reader), e.id)
  {
    var i :| 0 <= i < |run.events| && Review.EvidenceOf(run.events[i], run.id, reader) == e;
    assert EvidenceId(EvidenceFromEvents(run, reader)[i]) == e.id;
  }

  lemma BoundFromEvents(r: Requirement, run: Run, reader: Reader)
    requires DeclarationAt(run.events).Some?
    ensures forall e | e in Bound(r, run, reader) :: FromEvent(e, run, reader)
    ensures Bound(r, run, reader) != []
  {
    var at := Observations(run.events, reader, r.id);
    var observations := AssessmentsAt(run.events, reader, at);
    var all := [Declaration(run, reader)] + ObservedEvidence(run, reader, at) + SupportScore.Dedupe(AllReferenced(observations, run, reader));
    AllReferencedFromEvents(observations, run, reader);
    SupportScore.DedupeKeepsEachIdOnce(AllReferenced(observations, run, reader));
    SupportScore.DedupeKeepsEachIdOnce(all);
    ObservedFromEvents(run, reader, at);
    assert FromEvent(Declaration(run, reader), run, reader);
    assert all[0].id == Declaration(run, reader).id;
    assert SupportScore.HasId(all, all[0].id);
  }

  lemma ObservedFromEvents(run: Run, reader: Reader, at: seq<nat>)
    requires forall i | i in at :: i < |run.events|
    ensures forall e | e in ObservedEvidence(run, reader, at) :: FromEvent(e, run, reader)
  {
    forall e | e in ObservedEvidence(run, reader, at) ensures FromEvent(e, run, reader) {
      var k :| 0 <= k < |at| && ObservedEvidence(run, reader, at)[k] == e;
      assert at[k] in at;
    }
  }

  lemma ClaimCarriesBound(r: Requirement, i: nat, run: Run, reader: Reader, now: int)
    ensures forall id | id in ClaimFor(r, i, run, reader, now).evidence :: exists e | e in Bound(r, run, reader) :: e.id == id
    ensures ClaimFor(r, i, run, reader, now).id == ClaimName(i)
  {
    var claim, bound := ClaimFor(r, i, run, reader, now), Bound(r, run, reader);
    forall id | id in claim.evidence ensures exists e | e in bound :: e.id == id {
      var k :| 0 <= k < |claim.evidence| && claim.evidence[k] == id;
      assert bound[k] in bound;
    }
  }

  lemma RequirementStaysInside(r: Requirement, i: nat, run: Run, reader: Reader, now: int)
    requires DeclarationAt(run.events).Some?
    ensures BoundInside(ClaimFor(r, i, run, reader, now), Bound(r, run, reader), EvidenceFromEvents(run, reader))
  {
    BoundFromEvents(r, run, reader);
    ClaimCarriesBound(r, i, run, reader, now);
    forall e | e in Bound(r, run, reader) ensures HasEvidence(EvidenceFromEvents(run, reader), e.id) {
      FromEventIsEvidence(e, run, reader);
    }
  }

  // ---- Distinct original IDs

  lemma ClaimNamesDiffer(i: nat, j: nat)
    requires ClaimName(i) == ClaimName(j)
    ensures i == j
  {
    assert Decimal(i + 1) == ClaimName(i)[19..] && Decimal(j + 1) == ClaimName(j)[19..];
    DecimalIsInjective(i + 1, j + 1);
  }

  lemma ClaimNameStarts(i: nat)
    ensures ClaimName(i) != "" && ClaimName(i)[0] == 'c'
  {
  }

  lemma EvidenceIdStarts(e: Event, run: string, reader: Reader)
    ensures Review.EvidenceOf(e, run, reader).id != "" && Review.EvidenceOf(e, run, reader).id[0] == 'e'
  {
  }

  lemma ReviewedIdsDistinct(claims: seq<Claim>, run: Run, reader: Reader)
    requires DistinctEvidence(run, reader) && forall i | 0 <= i < |claims| :: claims[i].id == ClaimName(i)
    ensures DistinctOriginals(Analysis(claims, EvidenceFromEvents(run, reader), [], [], []))
  {
    var evidence := EvidenceFromEvents(run, reader);
    forall i | 0 <= i < |evidence| ensures evidence[i].id != "" && evidence[i].id[0] == 'e' {
      EvidenceIdStarts(run.events[i], run.id, reader);
    }
    forall j | 0 <= j < |claims| ensures claims[j].id != "" && claims[j].id[0] == 'c' {
      ClaimNameStarts(j);
    }
    forall i, j | 0 <= i < j < |claims| ensures ClaimId(claims[i]) != ClaimId(claims[j]) {
      if ClaimName(i) == ClaimName(j) {
        ClaimNamesDiffer(i, j);
      }
    }
  }

  // ---- The whole review

  lemma InsideIsClosed(a: Analysis)
    requires Inside(a, a.evidence)
    ensures Closed(a)
  {
    forall k | 0 <= k < |a.relations| ensures IsEvidence(a, a.relations[k].from) && IsClaim(a, a.relations[k].to) {
      assert a.relations[k] in a.relations;
    }
    forall j, i | 0 <= j < |a.claims| && 0 <= i < |a.claims[j].evidence| ensures IsEvidence(a, a.claims[j].evidence[i]) {
      var c, id := a.claims[j], a.claims[j].evidence[i];
      assert c in a.claims && id in c.evidence;
      assert HasEvidence(a.evidence, id);
    }
    forall i | 0 <= i < |a.assumptions| ensures IsClaim(a, a.assumptions[i].claim) {
      assert a.assumptions[i] in a.assumptions;
    }
  }

  lemma FoldedBindsSomething(list: seq<Requirement>, evidence: seq<Evidence>, views: Views)
    requires list != [] && views.bound(list[|list| - 1]) != []
    ensures Folded(list, evidence, views).relations != []
  {
  }

  lemma DeclaredRequirements(run: Run, reader: Reader)
    requires Requirements(run.events, reader) != []
    ensures DeclarationAt(run.events).Some?
  {
  }

  lemma ReviewedStaysInside(run: Run, reader: Reader, now: int)
    ensures var p := Reviewed(Requirements(run.events, reader), run, reader, now);
            Inside(p, p.evidence) && p.evidence == EvidenceFromEvents(run, reader) && AutoBound(p).None?
            && forall i | 0 <= i < |p.claims| :: p.claims[i].id == ClaimName(i)
  {
    hide Folded;
    var list := Requirements(run.events, reader);
    var evidence, views := EvidenceFromEvents(run, reader), ViewsOf(run, reader, now);
    OneClaimPerRequirement(list, evidence, views);
    forall i | 0 <= i < |list|
      ensures BoundInside(views.claim(list[i], i), views.bound(list[i]), evidence)
      ensures views.claim(list[i], i).id == ClaimName(i) && views.bound(list[i]) != []
    {
      DeclaredRequirements(run, reader);
      ViewsSee(run, reader, now);
      assert SeesOne(views, list[i], i, run, reader, now);
      RequirementStaysInside(list[i], i, run, reader, now);
      ClaimCarriesBound(list[i], i, run, reader, now);
      BoundFromEvents(list[i], run, reader);
    }
    FoldedStaysInside(list, evidence, views);
    if list != [] {
      FoldedBindsSomething(list, evidence, views);
    }
  }

  lemma ClaimIsScored(r: Requirement, i: nat, run: Run, reader: Reader, now: int)
    ensures SupportScore.InUnit(ClaimFor(r, i, run, reader, now).support)
  {
    SupportScore.ScoreInUnit(Bound(r, run, reader), RequirementState(r, run, reader), now);
  }

  /** Every claim of a review is scored in bounds. */
  lemma ReviewIsBounded(list: seq<Requirement>, run: Run, reader: Reader, now: int)
    ensures RunHistory.Bounded(Reviewed(list, run, reader, now))
  {
    hide SupportScore.InUnit, ClaimFor;
    var views, p := ViewsOf(run, reader, now), Reviewed(list, run, reader, now);
    OneClaimPerRequirement(list, EvidenceFromEvents(run, reader), views);
    ViewsSee(run, reader, now);
    forall c | c in p.claims ensures SupportScore.InUnit(c.support) {
      var i :| 0 <= i < |p.claims| && p.claims[i] == c;
      assert SeesOne(views, list[i], i, run, reader, now);
      ClaimIsScored(list[i], i, run, reader, now);
    }
  }

  lemma DistinctnessOfParts(a: Analysis)
    requires DistinctOriginals(Analysis(a.claims, a.evidence, [], [], []))
    ensures DistinctOriginals(a)
  {
  }

  /** A review owes nothing: its relabelling is an isomorphism, no reference dangles, and it
      is what `AnalysisComesBack` asks for. */
  lemma ReviewIsSound(run: Run, reader: Reader, made: int, n: nat, now: int, d: string, stored: map<string, Relation>)
    requires DistinctEvidence(run, reader)
    ensures var p := Reviewed(Requirements(run.events, reader), run, reader, made);
            var b := Relabelled(p, n, now, d);
            Isomorphic(p, b, id => Mapped(IdMap(p, n), id)) && Projection.Sound(p, b, run.id, stored)
  {
    hide AutoBound, Closed, DistinctOriginals, Isomorphic, Undrawn, Relabelled, Reviewed, Requirements;
    var p := Reviewed(Requirements(run.events, reader), run, reader, made);
    ReviewedStaysInside(run, reader, made);
    ReviewedIdsDistinct(p.claims, run, reader);
    DistinctnessOfParts(p);
    InsideIsClosed(p);
    RelabelledIsClosed(p, n, now, d);
    RelabellingPreservesTheGraph(p, n, now, d);
    forall k | 0 <= k < |p.relations| ensures p.relations[k].id == "" {
      assert p.relations[k] in p.relations;
    }
  }
}
