/** The service methods step by step over the mutable repository
    (apps/control-plane/internal/service/service.go), proved against `Service`. */
module ServiceCode {
  import opened Text
  import opened Domain
  import opened Store
  import opened MemoryStore
  import opened Portfolio
  import opened Service
  import Sorting
  import Policy
  import Relabel

  /** The sorted non-empty hashes of a graph. */
  method CollectHashes(g: Graph) returns (hashes: seq<string>)
    ensures hashes == ArtifactHashes(g)
  {
    hashes := [];
    for i := 0 to |g.evidence|
      invariant hashes == EvidenceHashes(g.evidence[..i])
    {
      assert g.evidence[..i + 1][..i] == g.evidence[..i];
      if g.evidence[i].contentHash != "" {
        hashes := hashes + [g.evidence[i].contentHash];
      }
    }
    assert g.evidence[..|g.evidence|] == g.evidence;
    for i := 0 to |g.verifications|
      invariant hashes == EvidenceHashes(g.evidence) + CheckHashes(g.verifications[..i])
    {
      assert g.verifications[..i + 1][..i] == g.verifications[..i];
      if g.verifications[i].artifactHash != "" {
        hashes := hashes + [g.verifications[i].artifactHash];
      }
    }
    assert g.verifications[..|g.verifications|] == g.verifications;
    hashes := Sorting.Sort(hashes, TextOrder);
  }

  method PlanChecks(claims: seq<Claim>, d: string, spec: Claim -> (string, string), n: nat, now: int)
      returns (out: seq<Verification>)
    ensures out == Checks(claims, d, spec, n, now)
  {
    out := [];
    for i := 0 to |claims|
      invariant out == Checks(claims[..i], d, spec, n, now)
    {
      assert claims[..i + 1][..i] == claims[..i];
      if !claims[i].critical || claims[i].state.Supported? || claims[i].state.ExternallyVerified? {
        continue;
      }
      out := out + [Check(claims[i], d, spec, n + |out|, now)];
    }
    assert claims[..|claims|] == claims;
  }

  class ControlPlane {
    const repo: Memory
    const portfolio: PortfolioStore
    const hashes: Hashes
    const spec: Claim -> (string, string)
    var drawn: nat

    constructor (repo: Memory, portfolio: PortfolioStore, hashes: Hashes, spec: Claim -> (string, string))
      ensures this.repo == repo && this.portfolio == portfolio && this.hashes == hashes && this.spec == spec && drawn == 0
    {
      this.repo, this.portfolio, this.hashes, this.spec, drawn := repo, portfolio, hashes, spec, 0;
    }

    method CreateRun(input: RunInput, now: int) returns (result: Result<Run>)
      requires portfolio.Contents().Keyed()
      modifies this, repo, portfolio
      ensures drawn == old(drawn) + 1 && portfolio.Contents().Keyed()
      ensures match Resolve(old(portfolio.Contents()), input)
              case Ok(resolved) =>
                && (repo.Contents(), result) == Service.CreateRun(old(repo.Contents()), resolved, old(drawn), now)
                && (if result.Ok? then UsedNow(old(portfolio.Contents()), resolved.aiSystem, now, portfolio.Contents())
                    else portfolio.Contents() == old(portfolio.Contents()))
              case Failed(why) =>
                && repo.Contents() == old(repo.Contents()) && portfolio.Contents() == old(portfolio.Contents())
                && result == Failed(if TrimSpace(input.recommendation) == "" then Invalid else why)
    {
      var n := drawn;
      drawn := drawn + 1;
      if TrimSpace(input.recommendation) == "" {
        return Failed(Invalid);
      }
      var resolved := LookUp(input);
      if resolved.Failed? {
        return Failed(resolved.failure);
      }
      var (run, decision) := NewRun(resolved.value, n, now);
      repo.CreateRun(run, decision);
      portfolio.Use(run.aiSystem, run.createdAt);
      result := Ok(run);
    }

    /** The lookups, in the code's order. */
    method LookUp(input: RunInput) returns (resolved: Result<RunInput>)
      ensures resolved == Resolve(portfolio.Contents(), input)
    {
      var in_ := input;
      if in_.project != "" {
        if in_.project !in portfolio.projects {
          return Failed(NotFound);
        }
        var project := portfolio.projects[in_.project];
        if in_.account != "" && in_.account != project.account {
          return Failed(Invalid);
        }
        in_ := in_.(account := project.account);
      }
      if in_.account != "" && in_.account !in portfolio.accounts {
        return Failed(NotFound);
      }
      if in_.aiSystem != "" {
        if in_.aiSystem !in portfolio.systems {
          return Failed(NotFound);
        }
        var system := portfolio.systems[in_.aiSystem];
        if in_.project == "" || system.project != in_.project {
          return Failed(Invalid);
        }
      }
      resolved := Ok(in_);
    }

    method AddEvent(runId: string, input: EventInput, now: int) returns (result: Result<Event>)
      modifies this, repo
      ensures (repo.Contents(), result) == Service.AddEvent(old(repo.Contents()), runId, input, old(drawn), now)
      ensures drawn == old(drawn) + 1
    {
      var n := drawn;
      drawn := drawn + 1;
      if input.kind == "" || |input.payload| == 0 {
        return Failed(Invalid);
      }
      var added := repo.AddEvent(runId, NewEvent(input, n, now));
      if added.NoSuchRun? {
        return Failed(NotFound);
      }
      result := Ok(added.event);
    }

    method Analyze(runId: string, proposal: Option<Analysis>, now: int) returns (result: Result<Graph>)
      requires repo.Valid()
      modifies this, repo
      ensures (repo.Contents(), result) == Service.Analyze(old(repo.Contents()), runId, proposal, old(drawn), now)
      ensures proposal.Some? ==> drawn == old(drawn) + Relabel.Drawn(proposal.value)
    {
      var n := drawn;
      drawn := drawn + if proposal.Some? then Relabel.Drawn(proposal.value) else 0;
      if runId !in repo.runs {
        return Failed(NotFound);
      }
      var run := repo.runs[runId];
      var graph := repo.GraphOf(run);
      if run.status.Analyzed? {
        return Ok(graph);
      }
      if proposal.None? {
        return Failed(AnalyzerFailed);
      }
      var relabelled := Relabel.RelabelAnalysis(proposal.value, n, now, graph.decision.id);
      SaveAnalysisKeepsKeys(repo.Contents(), runId, relabelled);
      var found := repo.SaveAnalysis(runId, relabelled);
      graph := repo.GraphOf(repo.runs[runId]);
      result := Ok(graph);
    }

    method Plan(d: string, now: int) returns (result: Result<seq<Verification>>)
      requires repo.Valid()
      modifies this, repo
      ensures (repo.Contents(), result) == Service.Plan(old(repo.Contents()), d, spec, old(drawn), now)
    {
      if d !in repo.decisions {
        return Failed(NotFound);
      }
      var g := repo.GraphOf(RunOf(repo.Contents(), repo.decisions[d].run));
      if |g.verifications| > 0 {
        return Ok(g.verifications);
      }
      var out := PlanChecks(g.claims, d, spec, drawn, now);
      drawn := drawn + |out|;
      if |out| == 0 {
        return Ok([]);
      }
      repo.SaveVerifications(out);
      result := Ok(out);
    }

    method ExecuteVerification(id: string, input: CheckInput, executed: Option<(string, string)>, now: int)
        returns (result: Result<Verification>)
      requires repo.Valid()
      modifies repo
      ensures (repo.Contents(), result)
              == Service.ExecuteVerification(old(repo.Contents()), id, input, executed, hashes, now)
    {
      hide Complete;
      if id !in repo.verifications {
        return Failed(NotFound);
      }
      var v := repo.verifications[id];
      if v.status.Completed? {
        return Failed(Conflict);
      }
      var environment := input.environment;
      if environment == "" {
        environment := v.environment;
      }
      if environment != "sandbox" && environment != "staging" {
        return Failed(Invalid);
      }
      if v.requiresApproval && !input.approved {
        return Failed(Invalid);
      }
      v := v.(approved := true, approvedBy := if input.approvedBy == "" then "human-reviewer" else input.approvedBy);
      var outcome, artifact := input.outcome, input.artifact;
      if outcome == "" && |artifact| == 0 {
        v := v.(status := Running);
        var started := repo.UpdateVerification(v);
        if executed.None? {
          return Failed(ExecutorFailed);
        }
        outcome, artifact := executed.value.0, executed.value.1;
      }
      result := FinishVerification(v, environment, outcome, artifact, now);
    }

    method FinishVerification(v: Verification, environment: string, outcome: string, artifact: string, now: int)
        returns (result: Result<Verification>)
      modifies repo
      ensures (repo.Contents(), result)
              == Finish(old(repo.Contents()), v, environment, outcome, artifact, hashes, now)
    {
      if outcome != "passed" && outcome != "failed" {
        return Failed(Invalid);
      }
      if |artifact| == 0 {
        return Failed(Invalid);
      }
      var done := v.(environment := environment, outcome := outcome, artifact := artifact);
      done := done.(artifactHash := hashes.artifact(artifact), status := Completed, executedAt := Some(now));
      var found := repo.UpdateVerification(done);
      if !found {
        return Failed(NotFound);
      }
      result := Ok(done);
    }

    method Evaluate(d: string, approved: bool, now: int) returns (result: Result<Certificate>)
      requires repo.Valid()
      modifies repo
      ensures (repo.Contents(), result) == Service.Evaluate(old(repo.Contents()), d, approved, hashes, now)
    {
      if d in repo.certificates {
        return Ok(repo.certificates[d]);
      }
      if d !in repo.decisions {
        return Failed(NotFound);
      }
      var g := repo.GraphOf(RunOf(repo.Contents(), repo.decisions[d].run));
      var verdict := Policy.Evaluate(g.claims, g.unknowns, approved);
      var decision := g.decision.(verdict := Some(verdict.verdict), conditions := verdict.conditions);
      decision := decision.(humanApproved := approved, actionAllowed := verdict.actionAllowed, evaluatedAt := Some(now));
      var found := repo.SaveDecision(decision);
      if !found {
        return Failed(NotFound);
      }
      var artifactHashes := CollectHashes(g);
      var certificate := Certificate("1.0", decision.id, decision.run, decision.recommendation, verdict.verdict,
                                     decision.actionAllowed, decision.humanApproved, decision.conditions,
                                     decision.policyVersion, artifactHashes, g.claims, g.verifications, now, "", "");
      certificate := certificate.(algorithm := "SHA-256", digest := Digest(certificate, hashes));
      repo.SaveCertificate(certificate);
      result := Ok(certificate);
    }
  }

  lemma SaveAnalysisKeepsKeys(db: Db, runId: string, a: Analysis)
    requires KeyedById(db) && runId in db.runs
    ensures KeyedById(SaveAnalysis(db, runId, a))
  {
    PutAllKeepsKeyed(db.claims, a.claims, ClaimId);
    PutAllKeepsKeyed(db.evidence, a.evidence, EvidenceId);
    PutAllKeepsKeyed(db.relations, a.relations, RelationId);
    PutAllKeepsKeyed(db.assumptions, a.assumptions, AssumptionId);
    PutAllKeepsKeyed(db.unknowns, a.unknowns, UnknownId);
  }

  lemma {:induction false} PutAllKeepsKeyed<T>(m: map<string, T>, items: seq<T>, key: T -> string)
    requires Keyed(m, key)
    ensures Keyed(PutAll(m, items, key), key)
  {
    if items != [] {
      PutAllKeepsKeyed(m, items[..|items| - 1], key);
    }
  }
}
