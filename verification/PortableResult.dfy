/** The portable answer to a decision request: `portableResult`
    (apps/control-plane/internal/httpapi/protocol.go). */
module PortableResult {
  import opened Domain
  import opened Selection
  import Policy

  datatype Reason = Reason(code: string, message: string, subject: string)

  datatype Result = Result(decision: string, status: string, actionAllowed: bool, reasons: seq<Reason>, conditions: seq<string>)

  const APPROVAL := "Human approval is required before consequential action."

  predicate Allows(verdict: Verdict) {
    verdict.Verified? || verdict.VerifiedWithConditions?
  }

  function VerdictReasons(verdict: Verdict): seq<Reason> {
    match verdict
    case Verified => []
    case VerifiedWithConditions => []
    case ContradictedVerdict => [Reason("contradicted", "A critical claim is contradicted.", "")]
    case RejectedVerdict => [Reason("rejected", "A critical claim was rejected.", "")]
    case InsufficientEvidence => [Reason("insufficient_evidence", "Critical evidence or verification is incomplete.", "")]
  }

  /** One reason per contradicted claim, in claim order. */
  function ClaimReasons(claims: seq<Claim>): seq<Reason> {
    if claims == [] then []
    else
      var last := claims[|claims| - 1];
      ClaimReasons(claims[..|claims| - 1])
      + if last.state.Contradicted? then [Reason("contradicted", last.statement, last.id)] else []
  }

  // ---- What the answer says of the certificate

  ghost function ContradictedHere(claims: seq<Claim>): nat -> bool {
    (i: nat) => i < |claims| && claims[i].state.Contradicted?
  }

  ghost predicate FirstReason(verdict: Verdict, r: Reason) {
    && r.subject == ""
    && (verdict.RejectedVerdict? ==> r.code == "rejected" && r.message == "A critical claim was rejected.")
    && (verdict.ContradictedVerdict? ==> r.code == "contradicted" && r.message == "A critical claim is contradicted.")
    && (verdict.InsufficientEvidence? ==>
          r.code == "insufficient_evidence" && r.message == "Critical evidence or verification is incomplete.")
  }

  /** Unless the verdict allows action a first reason names it; then one reason for each
      contradicted claim, critical or not, in claim order. */
  ghost predicate ReasonsFor(reasons: seq<Reason>, verdict: Verdict, claims: seq<Claim>) {
    exists at: seq<nat> ::
      && Selects(at, |claims|, ContradictedHere(claims))
      && (var first := if verdict.Verified? || verdict.VerifiedWithConditions? then 0 else 1;
          && |reasons| == first + |at| && (first == 1 ==> FirstReason(verdict, reasons[0]))
          && forall k | 0 <= k < |at| ::
               at[k] < |claims| && reasons[first + k] == Reason("contradicted", claims[at[k]].statement, claims[at[k]].id))
  }

  /** Without approval an allowed action carries one condition more. */
  ghost predicate Says(result: Result, id: string, c: Certificate, claims: seq<Claim>) {
    && result.decision == id && (result.actionAllowed <==> c.actionAllowed) && ReasonsFor(result.reasons, c.verdict, claims)
    && (if c.verdict.Verified? || c.verdict.VerifiedWithConditions? then
          result.status == "allow"
          && result.conditions == (if c.actionAllowed then c.conditions
                                   else c.conditions + ["Human approval is required before consequential action."])
        else result.status == "block" && result.conditions == c.conditions)
  }

  lemma {:induction false} ReasonsSelected(claims: seq<Claim>, n: nat) returns (at: seq<nat>)
    requires n <= |claims|
    ensures Selects(at, n, ContradictedHere(claims)) && |ClaimReasons(claims[..n])| == |at|
    ensures forall k | 0 <= k < |at| ::
              at[k] < |claims| && ClaimReasons(claims[..n])[k] == Reason("contradicted", claims[at[k]].statement, claims[at[k]].id)
  {
    if n == 0 {
      at := [];
    } else {
      var front := ReasonsSelected(claims, n - 1);
      at := OneMoreSelected(front, n - 1, ContradictedHere(claims));
      assert claims[..n][..n - 1] == claims[..n - 1];
    }
  }

  lemma ReasonsAreFor(verdict: Verdict, claims: seq<Claim>)
    ensures ReasonsFor(VerdictReasons(verdict) + ClaimReasons(claims), verdict, claims)
  {
    hide ClaimReasons, VerdictReasons, FirstReason, ContradictedHere;
    var at := ReasonsSelected(claims, |claims|);
    assert claims[..|claims|] == claims;
    FirstReasonIs(verdict);
    var first: nat, reasons := |VerdictReasons(verdict)|, VerdictReasons(verdict) + ClaimReasons(claims);
    assert |reasons| == first + |at| && (first == 1 ==> reasons[0] == VerdictReasons(verdict)[0]);
    forall k | 0 <= k < |at|
      ensures at[k] < |claims| && reasons[first + k] == Reason("contradicted", claims[at[k]].statement, claims[at[k]].id)
    {
      assert reasons[first + k] == ClaimReasons(claims)[k];
    }
  }

  lemma FirstReasonIs(verdict: Verdict)
    ensures |VerdictReasons(verdict)| == if verdict.Verified? || verdict.VerifiedWithConditions? then 0 else 1
    ensures |VerdictReasons(verdict)| == 1 ==> FirstReason(verdict, VerdictReasons(verdict)[0])
  {
  }

  method Portable(id: string, certificate: Certificate, claims: seq<Claim>) returns (result: Result)
    ensures Says(result, id, certificate, claims)
    ensures result.reasons == VerdictReasons(certificate.verdict) + ClaimReasons(claims)
  {
    var status := "block";
    var reasons := VerdictReasons(certificate.verdict);
    if Allows(certificate.verdict) {
      status := "allow";
    }
    for i := 0 to |claims|
      invariant reasons == VerdictReasons(certificate.verdict) + ClaimReasons(claims[..i])
    {
      assert claims[..i + 1][..i] == claims[..i];
      if claims[i].state.Contradicted? {
        reasons := reasons + [Reason("contradicted", claims[i].statement, claims[i].id)];
      }
    }
    assert claims[..|claims|] == claims;
    var conditions := certificate.conditions;
    if status == "allow" && !certificate.actionAllowed {
      conditions := conditions + [APPROVAL];
    }
    result := Result(id, status, certificate.actionAllowed, reasons, conditions);
    ReasonsAreFor(certificate.verdict, claims);
  }

  lemma {:induction false} NoContradictionNoReason(claims: seq<Claim>)
    ensures ClaimReasons(claims) == [] <==> !Policy.AnyIn(claims, ClaimState.Contradicted)
  {
    if claims != [] {
      var front := claims[..|claims| - 1];
      NoContradictionNoReason(front);
      assert forall i | 0 <= i < |front| :: front[i] == claims[i];
    }
  }

  /** When the verdict is the policy's on these claims, the answer gives reasons exactly when
      it blocks, and an allowed action comes with status "allow". */
  lemma ReasonsExplainBlocks(claims: seq<Claim>, unknowns: seq<Unknown>, approved: bool)
    ensures var judged := Policy.Judge(claims, unknowns, approved);
            && (VerdictReasons(judged.verdict) + ClaimReasons(claims) == [] <==> Allows(judged.verdict))
            && (judged.actionAllowed ==> Allows(judged.verdict))
  {
    NoContradictionNoReason(claims);
    Policy.VerifiedExactly(claims, unknowns, approved);
  }
}
