/** The entities of the control plane (apps/control-plane/internal/domain/model.go).
    Times are integers, floats are reals, payload bytes are strings. */
module Domain {
  import opened Text

  datatype ClaimState =
    | Supported | PartiallySupported | Unsupported | Contradicted
    | Stale | VerificationPending | ExternallyVerified | Rejected

  datatype RelationType = Supports | Contradicts | Qualifies | Supersedes | DerivedFrom | VerifiedBy

  datatype Verdict = Verified | VerifiedWithConditions | InsufficientEvidence | ContradictedVerdict | RejectedVerdict

  datatype RunStatus = Ingesting | Analyzed

  datatype CheckStatus = Planned | Running | Completed

  datatype Event = Event(
    id: string, externalId: string, sequence: int, kind: string, source: string, correlation: string,
    occurredAt: int, payload: string)

  datatype Run = Run(
    id: string, trace: string, title: string, recommendation: string, status: RunStatus, decision: string,
    events: seq<Event>, createdAt: int, account: string, project: string, aiSystem: string)

  datatype Decision = Decision(
    id: string, run: string, recommendation: string, actionType: string, policyVersion: string,
    verdict: Option<Verdict>, actionAllowed: bool, humanApproved: bool, conditions: seq<string>,
    claims: seq<string>, createdAt: int, evaluatedAt: Option<int>)

  datatype Support = Support(
    value: real, coverage: real, quality: real, independence: real, freshness: real, scopeMatch: real,
    direct: real, burden: real, semantics: string)

  datatype Claim = Claim(
    id: string, decision: string, statement: string, scope: string, critical: bool, importance: string,
    required: seq<string>, state: ClaimState, justification: string, support: Support,
    evidence: seq<string>, createdAt: int)

  datatype Evidence = Evidence(
    id: string, run: string, kind: string, source: string, summary: string, contentHash: string,
    observedAt: int, raw: string)

  datatype Relation = Relation(id: string, from: string, to: string, kind: RelationType, rationale: string)

  datatype Assumption = Assumption(
    id: string, decision: string, claim: string, statement: string, critical: bool, status: string, impact: string)

  datatype Unknown = Unknown(id: string, decision: string, question: string, critical: bool, resolved: bool)

  datatype Verification = Verification(
    id: string, decision: string, claim: string, check: string, kind: string, specification: string,
    environment: string, status: CheckStatus, requiresApproval: bool, approved: bool, approvedBy: string,
    outcome: string, artifact: string, artifactHash: string, createdAt: int, executedAt: Option<int>)

  datatype Graph = Graph(
    run: Run, decision: Decision, claims: seq<Claim>, evidence: seq<Evidence>, relations: seq<Relation>,
    assumptions: seq<Assumption>, unknowns: seq<Unknown>, verifications: seq<Verification>)

  datatype Certificate = Certificate(
    version: string, decision: string, run: string, recommendation: string, verdict: Verdict,
    actionAllowed: bool, humanApproved: bool, conditions: seq<string>, policyVersion: string,
    artifactHashes: seq<string>, claims: seq<Claim>, verifications: seq<Verification>, issuedAt: int,
    algorithm: string, digest: string)

  datatype Analysis = Analysis(
    claims: seq<Claim>, evidence: seq<Evidence>, relations: seq<Relation>, assumptions: seq<Assumption>,
    unknowns: seq<Unknown>)

  /** `newID`: random tokens that never repeat, numbered by the order of their drawing. */
  function NewId(prefix: string, n: nat): string {
    prefix + "_" + Decimal(n)
  }

  lemma NewIdIsInjective(p: string, m: nat, q: string, n: nat)
    requires |p| == |q| && NewId(p, m) == NewId(q, n)
    ensures p == q && m == n
  {
    var a, b := NewId(p, m), NewId(q, n);
    assert p == a[..|p|] && q == b[..|q|];
    assert Decimal(m) == a[|p| + 1..] && Decimal(n) == b[|q| + 1..];
    DecimalIsInjective(m, n);
  }

  /** The ID `UpdateVerification` gives the relation it adds. */
  function VerifiedRelationId(verification: string): string {
    "rel_verified_" + verification
  }

  lemma VerifiedRelationIdIsNew(verification: string, n: nat)
    ensures VerifiedRelationId(verification) != NewId("rel", n)
  {
    assert VerifiedRelationId(verification)[4] == 'v';
    assert NewId("rel", n)[4] == Decimal(n)[0];
  }
}
