/** The mutex-guarded struct of maps (apps/control-plane/internal/store/memory.go), each
    method proved against the function of the same name in `Store`. */
module MemoryStore {
  import opened Text
  import opened Domain
  import opened Store

  class Memory {
    var runs: map<string, Run>
    var decisions: map<string, Decision>
    var claims: map<string, Claim>
    var evidence: map<string, Evidence>
    var relations: map<string, Relation>
    var assumptions: map<string, Assumption>
    var unknowns: map<string, Unknown>
    var verifications: map<string, Verification>
    var certificates: map<string, Certificate>

    constructor ()
      ensures Contents() == EMPTY
    {
      runs, decisions, claims, evidence, relations := map[], map[], map[], map[], map[];
      assumptions, unknowns, verifications, certificates := map[], map[], map[], map[];
    }

    function Contents(): Db
      reads this
    {
      Db(runs, decisions, claims, evidence, relations, assumptions, unknowns, verifications, certificates)
    }

    /** Every entity is stored under its own ID. */
    ghost predicate Valid()
      reads this
    {
      KeyedById(Contents())
    }

    method CreateRun(run: Run, decision: Decision)
      modifies this
      ensures Contents() == old(Contents()).(runs := old(runs)[run.id := run], decisions := old(decisions)[decision.id := decision])
    {
      runs := runs[run.id := run];
      decisions := decisions[decision.id := decision];
    }

    method AddEvent(id: string, event: Event) returns (added: Added)
      modifies this
      ensures (Contents(), added) == Store.AddEvent(old(Contents()), id, event)
    {
      if id !in runs {
        return NoSuchRun;
      }
      var run := runs[id];
      for i := 0 to |run.events|
        invariant Contents() == old(Contents())
        invariant FindExternal(run.events, event.externalId)
                  == match FindExternal(run.events[i..], event.externalId) case None => None case Some(j) => Some(i + j)
      {
        assert run.events[i..][1..] == run.events[i + 1..];
        if event.externalId != "" && run.events[i].externalId == event.externalId {
          return Added(run.events[i], false);
        }
      }
      var stored := event;
      if stored.sequence == 0 {
        stored := stored.(sequence := |run.events| + 1);
      }
      runs := runs[id := run.(events := run.events + [stored])];
      added := Added(stored, true);
    }

    /** Returns false when the run does not exist. */
    method SaveAnalysis(runId: string, a: Analysis) returns (found: bool)
      modifies this
      ensures found == (runId in old(runs))
      ensures Contents() == if found then Store.SaveAnalysis(old(Contents()), runId, a) else old(Contents())
    {
      if runId !in runs {
        return false;
      }
      var run := runs[runId].(status := Analyzed);
      runs := runs[runId := run];
      SaveItems(a);
      var ids := IdsOf(a.claims);
      var d := (if run.decision in decisions then decisions[run.decision] else NO_DECISION).(claims := ids);
      decisions := decisions[d.id := d];
      found := true;
    }

    /** The loops that store the analysed items. */
    method SaveItems(a: Analysis)
      modifies `claims, `evidence, `relations, `assumptions, `unknowns
      ensures claims == PutAll(old(claims), a.claims, ClaimId) && evidence == PutAll(old(evidence), a.evidence, EvidenceId)
      ensures relations == PutAll(old(relations), a.relations, RelationId)
      ensures assumptions == PutAll(old(assumptions), a.assumptions, AssumptionId)
      ensures unknowns == PutAll(old(unknowns), a.unknowns, UnknownId)
    {
      claims := PutEach(claims, a.claims, ClaimId);
      evidence := PutEach(evidence, a.evidence, EvidenceId);
      relations := PutEach(relations, a.relations, RelationId);
      assumptions := PutEach(assumptions, a.assumptions, AssumptionId);
      unknowns := PutEach(unknowns, a.unknowns, UnknownId);
    }

    method GraphOf(run: Run) returns (g: Graph)
      requires Valid()
      ensures g == Project(Contents(), run)
    {
      var d := DecisionOf(Contents(), run.decision);
      var cs := Collect(claims, (c: Claim) => c.decision == d.id, ClaimId);
      var es := Collect(evidence, (e: Evidence) => e.run == run.id, EvidenceId);
      var ats := Collect(assumptions, (a: Assumption) => a.decision == d.id, AssumptionId);
      var us := Collect(unknowns, (u: Unknown) => u.decision == d.id, UnknownId);
      var vs := Collect(verifications, (v: Verification) => v.decision == d.id, VerificationId);
      var objects := Objects(Contents(), run.id, d.id);
      var rs := Collect(relations, (r: Relation) => r.from in objects && r.to in objects, RelationId);
      g := Graph(run, d, cs, es, rs, ats, us, vs);
    }

    method SaveVerifications(checks: seq<Verification>)
      modifies this
      ensures Contents() == Store.SaveVerifications(old(Contents()), checks)
    {
      verifications := PutEach(verifications, checks, VerificationId);
    }

    /** Returns false when the verification does not exist. */
    method UpdateVerification(v: Verification) returns (found: bool)
      modifies this
      ensures found == (v.id in old(verifications))
      ensures Contents() == if found then Store.UpdateVerification(old(Contents()), v) else old(Contents())
    {
      if v.id !in verifications {
        return false;
      }
      verifications := verifications[v.id := v];
      if v.outcome == "passed" {
        var c := ClaimOf(Contents(), v.claim);
        c := c.(state := ExternallyVerified, support := c.support.(direct := 1.0, value := 1.0));
        claims := claims[c.id := c];
        relations := relations[VerifiedRelationId(v.id) := CheckRelation(c, v)];
        unknowns := ResolveEach(unknowns, v.decision);
      }
      if v.outcome == "failed" {
        var c := ClaimOf(Contents(), v.claim);
        c := c.(state := ClaimState.Contradicted, support := c.support.(burden := 1.0, value := 0.0));
        claims := claims[c.id := c];
        relations := relations[VerifiedRelationId(v.id) := CheckRelation(c, v)];
      }
      found := true;
    }

    /** Returns false when the decision does not exist. */
    method SaveDecision(d: Decision) returns (found: bool)
      modifies this
      ensures found == (d.id in old(decisions))
      ensures Contents() == if found then old(Contents()).(decisions := old(decisions)[d.id := d]) else old(Contents())
    {
      if d.id !in decisions {
        return false;
      }
      decisions := decisions[d.id := d];
      found := true;
    }

    method SaveCertificate(c: Certificate)
      modifies this
      ensures Contents() == if c.decision in old(certificates) then old(Contents())
                            else old(Contents()).(certificates := old(certificates)[c.decision := c])
    {
      if c.decision !in certificates {
        certificates := certificates[c.decision := c];
      }
    }
  }

  method IdsOf(claims: seq<Claim>) returns (ids: seq<string>)
    ensures ids == ClaimIds(claims)
  {
    ids := [];
    for i := 0 to |claims|
      invariant ids == ClaimIds(claims[..i])
    {
      assert claims[..i + 1][..i] == claims[..i];
      ids := ids + [claims[i].id];
    }
    assert claims[..|claims|] == claims;
  }

  /** The loop of `UpdateVerification` over all unknowns, in any order. */
  method ResolveEach(unknowns: map<string, Unknown>, d: string) returns (r: map<string, Unknown>)
    ensures r == ResolveCritical(unknowns, d)
  {
    r := unknowns;
    var todo := unknowns.Keys;
    while todo != {}
      invariant todo <= unknowns.Keys == r.Keys
      invariant forall k | k in unknowns :: r[k] == if k in todo then unknowns[k] else ResolveCritical(unknowns, d)[k]
    {
      var k :| k in todo;
      if r[k].decision == d && r[k].critical {
        r := r[k := r[k].(resolved := true)];
      }
      todo := todo - {k};
    }
  }
}
