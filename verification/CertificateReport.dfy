/** The human report of a certificate: `buildCertificateReport`
    (apps/control-plane/internal/service/service.go). */
module CertificateReport {
  import opened Domain
  import opened Store
  import opened Selection
  import Policy
  import SupportScore
  import Lifecycle
  import RunHistory
  import Service

  datatype ClaimLine = ClaimLine(statement: string, state: ClaimState, percent: int, evidence: nat)
  datatype CheckLine = CheckLine(check: string, outcome: string, environment: string, approvedBy: string, artifactHash: string)

  datatype Report = Report(
    proceed: bool, critical: nat, supported: nat, contradicted: nat, open: nat, checks: nat, passed: nat, artifacts: nat,
    claims: seq<ClaimLine>, verifications: seq<CheckLine>)

  /** Go's conversion of a float to an integer cuts off the fraction. */
  function Truncated(x: real): int {
    if x >= 0.0 then x.Floor else -((-x).Floor)
  }

  function Percent(value: real): int {
    Truncated(value * 100.0 + 0.5)
  }

  lemma PercentIsBounded(value: real)
    requires 0.0 <= value <= 1.0
    ensures 0 <= Percent(value) <= 100
    ensures value == 0.0 ==> Percent(value) == 0
    ensures value == 1.0 ==> Percent(value) == 100
  {
  }

  /** The whole percentage nearest to the value, halves going up. */
  ghost predicate IsNearest(percent: int, value: real) {
    percent as real - 0.5 <= 100.0 * value < percent as real + 0.5
  }

  lemma PercentIsNearest(value: real)
    requires value >= 0.0
    ensures IsNearest(Percent(value), value)
  {
  }

  predicate Good(state: ClaimState) { state.Supported? || state.ExternallyVerified? }
  predicate Bad(state: ClaimState) { state.Contradicted? || state.Rejected? }

  /** The positions of the items that pass. */
  function At<T>(items: seq<T>, pick: T -> bool): set<nat> {
    set i: nat | i < |items| && pick(items[i])
  }

  lemma OneMoreAt<T>(items: seq<T>, i: nat, pick: T -> bool)
    requires i < |items|
    ensures |At(items[..i + 1], pick)| == |At(items[..i], pick)| + if pick(items[i]) then 1 else 0
  {
    assert At(items[..i + 1], pick) == At(items[..i], pick) + if pick(items[i]) then {i} else {};
  }

  predicate IsCritical(c: Claim) { c.critical }
  predicate IsGood(c: Claim) { c.critical && Good(c.state) }
  predicate IsBad(c: Claim) { c.critical && Bad(c.state) }
  predicate IsOpen(c: Claim) { c.critical && !Good(c.state) && !Bad(c.state) }
  predicate HasPassed(v: Verification) { v.outcome == "passed" }

  function CriticalAt(claims: seq<Claim>): set<nat> { At(claims, IsCritical) }
  function GoodAt(claims: seq<Claim>): set<nat> { At(claims, IsGood) }
  function BadAt(claims: seq<Claim>): set<nat> { At(claims, IsBad) }
  function OpenAt(claims: seq<Claim>): set<nat> { At(claims, IsOpen) }
  function PassedAt(checks: seq<Verification>): set<nat> { At(checks, HasPassed) }

  function Line(c: Claim): ClaimLine {
    ClaimLine(c.statement, c.state, Percent(c.support.value), |c.evidence|)
  }

  /** The lines of the critical claims, in claim order. */
  function Lines(claims: seq<Claim>): seq<ClaimLine> {
    if claims == [] then []
    else
      var last := |claims| - 1;
      Lines(claims[..last]) + if claims[last].critical then [Line(claims[last])] else []
  }

  datatype Counts = Counts(critical: nat, supported: nat, contradicted: nat, open: nat)

  function CountsOf(claims: seq<Claim>): Counts {
    Counts(|CriticalAt(claims)|, |GoodAt(claims)|, |BadAt(claims)|, |OpenAt(claims)|)
  }

  /** One more claim goes to exactly one of the three groups, when it is critical. */
  function Counted(n: Counts, c: Claim): Counts {
    if !c.critical then n
    else if Good(c.state) then n.(critical := n.critical + 1, supported := n.supported + 1)
    else if Bad(c.state) then n.(critical := n.critical + 1, contradicted := n.contradicted + 1)
    else n.(critical := n.critical + 1, open := n.open + 1)
  }

  lemma OneMoreClaim(claims: seq<Claim>, i: nat)
    requires i < |claims|
    ensures CountsOf(claims[..i + 1]) == Counted(CountsOf(claims[..i]), claims[i])
  {
    OneMoreAt(claims, i, IsCritical);
    OneMoreAt(claims, i, IsGood);
    OneMoreAt(claims, i, IsBad);
    OneMoreAt(claims, i, IsOpen);
  }

  function CheckLineOf(v: Verification): CheckLine {
    CheckLine(v.check, v.outcome, v.environment, v.approvedBy, v.artifactHash)
  }

  // ---- What the report says of the certificate

  ghost function CriticalHere(claims: seq<Claim>): nat -> bool {
    (i: nat) => i < |claims| && claims[i].critical
  }

  /** One line per critical claim, in claim order. */
  ghost predicate LinesFor(lines: seq<ClaimLine>, claims: seq<Claim>) {
    exists at: seq<nat> ::
      && Selects(at, |claims|, CriticalHere(claims)) && |lines| == |at|
      && forall k | 0 <= k < |at| :: at[k] < |claims| && LineFor(lines[k], claims[at[k]])
  }

  ghost predicate LineFor(line: ClaimLine, c: Claim) {
    && line.statement == c.statement && line.state == c.state && line.evidence == |c.evidence|
    && (c.support.value >= 0.0 ==> IsNearest(line.percent, c.support.value))
  }

  ghost predicate CheckLineFor(line: CheckLine, v: Verification) {
    && line.check == v.check && line.outcome == v.outcome && line.environment == v.environment
    && line.approvedBy == v.approvedBy && line.artifactHash == v.artifactHash
  }

  /** The counters are those of the critical claims by state, and of the checks that passed. */
  ghost predicate Says(report: Report, c: Certificate) {
    && report.proceed == c.actionAllowed && report.artifacts == |c.artifactHashes|
    && report.critical == |set i: nat | i < |c.claims| && c.claims[i].critical|
    && report.supported == |set i: nat | i < |c.claims| && c.claims[i].critical
                                         && (c.claims[i].state.Supported? || c.claims[i].state.ExternallyVerified?)|
    && report.contradicted == |set i: nat | i < |c.claims| && c.claims[i].critical
                                            && (c.claims[i].state.Contradicted? || c.claims[i].state.Rejected?)|
    && report.supported + report.contradicted + report.open == report.critical
    && report.checks == |c.verifications| && report.passed == |set i: nat | i < |c.verifications| && c.verifications[i].outcome == "passed"|
    && LinesFor(report.claims, c.claims)
    && |report.verifications| == |c.verifications|
    && forall i | 0 <= i < |c.verifications| :: CheckLineFor(report.verifications[i], c.verifications[i])
  }

  lemma {:induction false} LinesSelected(claims: seq<Claim>, n: nat) returns (at: seq<nat>)
    requires n <= |claims|
    ensures Selects(at, n, CriticalHere(claims)) && |Lines(claims[..n])| == |at|
    ensures forall k | 0 <= k < |at| :: at[k] < |claims| && LineFor(Lines(claims[..n])[k], claims[at[k]])
  {
    hide Lines, LineFor, Line, CriticalHere;
    if n == 0 {
      at := [];
      NoLines(claims);
    } else {
      var front := LinesSelected(claims, n - 1);
      at := OneMoreSelected(front, n - 1, CriticalHere(claims));
      OneMoreLine(claims, n - 1);
      LineIsFor(claims[n - 1]);
    }
  }

  lemma NoLines(claims: seq<Claim>)
    ensures Lines(claims[..0]) == [] && Selects([], 0, CriticalHere(claims))
  {
  }

  lemma OneMoreLine(claims: seq<Claim>, n: nat)
    requires n < |claims|
    ensures Lines(claims[..n + 1]) == Lines(claims[..n]) + if CriticalHere(claims)(n) then [Line(claims[n])] else []
  {
    hide Line;
    assert claims[..n + 1][..n] == claims[..n];
  }

  lemma LineIsFor(c: Claim)
    ensures LineFor(Line(c), c)
  {
    hide Percent, IsNearest;
    if c.support.value >= 0.0 {
      PercentIsNearest(c.support.value);
    }
  }

  lemma LinesAreFor(claims: seq<Claim>)
    ensures LinesFor(Lines(claims), claims)
  {
    hide LineFor;
    var at := LinesSelected(claims, |claims|);
    assert claims[..|claims|] == claims;
  }

  lemma ReportSays(report: Report, c: Certificate)
    requires report.proceed == c.actionAllowed && report.artifacts == |c.artifactHashes|
    requires report.critical == |CriticalAt(c.claims)| && report.supported == |GoodAt(c.claims)| && report.contradicted == |BadAt(c.claims)|
    requires report.supported + report.contradicted + report.open == report.critical && report.claims == Lines(c.claims)
    requires report.checks == |c.verifications| && report.passed == |PassedAt(c.verifications)| && |report.verifications| == report.checks
    requires forall i | 0 <= i < report.checks :: report.verifications[i] == CheckLineOf(c.verifications[i])
    ensures Says(report, c)
  {
    hide LinesFor;
    LinesAreFor(c.claims);
    assert CriticalAt(c.claims) == (set i: nat | i < |c.claims| && c.claims[i].critical);
    assert GoodAt(c.claims) == (set i: nat | i < |c.claims| && c.claims[i].critical
                                             && (c.claims[i].state.Supported? || c.claims[i].state.ExternallyVerified?));
    assert BadAt(c.claims) == (set i: nat | i < |c.claims| && c.claims[i].critical
                                            && (c.claims[i].state.Contradicted? || c.claims[i].state.Rejected?));
    assert PassedAt(c.verifications) == (set i: nat | i < |c.verifications| && c.verifications[i].outcome == "passed");
  }

  method BuildCertificateReport(certificate: Certificate) returns (report: Report)
    ensures Says(report, certificate)
    ensures report.proceed == certificate.actionAllowed && report.artifacts == |certificate.artifactHashes|
    ensures report.critical == |CriticalAt(certificate.claims)| && report.supported == |GoodAt(certificate.claims)|
    ensures report.contradicted == |BadAt(certificate.claims)| && report.open == |OpenAt(certificate.claims)|
    ensures report.supported + report.contradicted + report.open == report.critical == |report.claims|
    ensures report.claims == Lines(certificate.claims)
    ensures report.checks == |certificate.verifications| && report.passed == |PassedAt(certificate.verifications)| <= report.checks
    ensures |report.verifications| == report.checks
            && forall i | 0 <= i < report.checks :: report.verifications[i] == CheckLineOf(certificate.verifications[i])
  {
    var counts, lines := CountClaims(certificate.claims);
    var passed, checks := CountChecks(certificate.verifications);
    report := Report(certificate.actionAllowed, counts.critical, counts.supported, counts.contradicted, counts.open, |checks|,
                     passed, |certificate.artifactHashes|, lines, checks);
    ReportSays(report, certificate);
  }

  lemma NothingCounted()
    ensures CountsOf([]) == Counts(0, 0, 0, 0)
  {
    assert CriticalAt([]) == {} && GoodAt([]) == {} && BadAt([]) == {} && OpenAt([]) == {};
  }

  /** The loop over the claims. */
  method CountClaims(claims: seq<Claim>) returns (counts: Counts, lines: seq<ClaimLine>)
    ensures counts == CountsOf(claims) && lines == Lines(claims)
    ensures counts.supported + counts.contradicted + counts.open == counts.critical == |lines|
  {
    hide CountsOf, Line;
    NothingCounted();
    counts, lines := Counts(0, 0, 0, 0), [];
    for i := 0 to |claims|
      invariant counts == CountsOf(claims[..i]) && lines == Lines(claims[..i])
      invariant counts.supported + counts.contradicted + counts.open == counts.critical == |lines|
    {
      OneMoreClaim(claims, i);
      assert claims[..i + 1][..i] == claims[..i];
      counts := CountClaim(counts, claims[i]);
      if claims[i].critical {
        lines := lines + [Line(claims[i])];
      }
    }
    assert claims[..|claims|] == claims;
  }

  /** The `switch` on the claim's state. */
  method CountClaim(before: Counts, c: Claim) returns (counts: Counts)
    ensures counts == Counted(before, c)
  {
    counts := before;
    if !c.critical {
      return;
    }
    counts := counts.(critical := counts.critical + 1);
    match c.state {
      case Supported => counts := counts.(supported := counts.supported + 1);
      case ExternallyVerified => counts := counts.(supported := counts.supported + 1);
      case Contradicted => counts := counts.(contradicted := counts.contradicted + 1);
      case Rejected => counts := counts.(contradicted := counts.contradicted + 1);
      case _ => counts := counts.(open := counts.open + 1);
    }
  }

  /** The loop over the checks. */
  method CountChecks(checks: seq<Verification>) returns (passed: nat, lines: seq<CheckLine>)
    ensures passed == |PassedAt(checks)| <= |checks|
    ensures |lines| == |checks| && forall i | 0 <= i < |checks| :: lines[i] == CheckLineOf(checks[i])
  {
    passed, lines := 0, [];
    for i := 0 to |checks|
      invariant passed == |PassedAt(checks[..i])| <= i
      invariant |lines| == i && forall k | 0 <= k < i :: lines[k] == CheckLineOf(checks[k])
    {
      OneMoreAt(checks, i, HasPassed);
      if checks[i].outcome == "passed" {
        passed := passed + 1;
      }
      lines := lines + [CheckLineOf(checks[i])];
    }
    assert checks[..|checks|] == checks;
  }

  lemma {:induction false} LinesBounded(claims: seq<Claim>)
    requires forall c | c in claims :: SupportScore.InUnit(c.support)
    ensures forall line | line in Lines(claims) :: 0 <= line.percent <= 100
  {
    if claims != [] {
      var last := |claims| - 1;
      LinesBounded(claims[..last]);
      assert claims[last] in claims;
      PercentIsBounded(claims[last].support.value);
    }
  }

  // ---- What reports of issued certificates say

  /** A report that says PROCEED shows at least one critical claim and nothing contradicted
      or rejected; every open one is a partially supported claim. */
  lemma ProceedShowsNoContradiction(c: Certificate)
    requires c.actionAllowed ==> Policy.Gates(c.claims, [])
    ensures c.actionAllowed ==> CriticalAt(c.claims) != {} && BadAt(c.claims) == {}
    ensures c.actionAllowed ==> forall i | i in OpenAt(c.claims) :: c.claims[i].state.PartiallySupported?
  {
    if c.actionAllowed {
      var i :| 0 <= i < |c.claims| && c.claims[i].critical;
      assert i in CriticalAt(c.claims);
    }
  }

  /** In every reachable state, the report of a stored certificate is bounded and agrees
      with the policy. */
  lemma ReachableReports(worlds: seq<Lifecycle.World>, calls: seq<Lifecycle.Call>, times: seq<int>, hashes: Service.Hashes,
                         i: nat, d: string)
    requires Lifecycle.History(worlds, calls, times, hashes) && i < |worlds| && d in worlds[i].db.certificates
    requires forall k | 0 <= k < i :: RunHistory.BoundedCall(calls[k])
    ensures forall line | line in Lines(worlds[i].db.certificates[d].claims) :: 0 <= line.percent <= 100
    ensures var c := worlds[i].db.certificates[d];
            c.actionAllowed ==> CriticalAt(c.claims) != {} && BadAt(c.claims) == {}
  {
    hide Policy.Judge, Service.CheckHashes, Service.Evaluate, ClaimsOf, DistinctKeys, EvidenceOf, KeyedById;
    var certificate := worlds[i].db.certificates[d];
    Lifecycle.CertificatesAreSafe(worlds, calls, times, hashes, i, d);
    ProceedShowsNoContradiction(certificate);
    assert d !in worlds[0].db.certificates;
    var k := RunHistory.CertificateWasIssued(worlds, calls, times, hashes, 0, i, d);
    Lifecycle.ReachableKeepsInv(worlds, calls, times, hashes, k);
    Lifecycle.IssuedCertificate(worlds[k], d, calls[k].approved, hashes, times[k]);
    Lifecycle.ClaimsOfDecision(worlds[k].db, d);
    forall c | c in certificate.claims ensures SupportScore.InUnit(c.support) {
      RunHistory.StoredSupportIsBounded(worlds, calls, times, hashes, k, c.id);
    }
    LinesBounded(certificate.claims);
  }
}
