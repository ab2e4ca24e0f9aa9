/** The deployment-readiness policy (apps/control-plane/internal/policy/policy.go). */
module Policy {
  import opened Domain
  import opened Selection

  const VERSION := "deployment-readiness/v1"
  const ROLLOUT := "Retain verification artifacts and monitor the first staged rollout."

  datatype Result = Result(verdict: Verdict, conditions: seq<string>, actionAllowed: bool)

  predicate Passing(state: ClaimState) {
    state.Supported? || state.ExternallyVerified? || state.PartiallySupported?
  }

  predicate AnyIn(claims: seq<Claim>, state: ClaimState) {
    exists i | 0 <= i < |claims| :: claims[i].state == state
  }

  predicate AnyCritical(claims: seq<Claim>) {
    exists i | 0 <= i < |claims| :: claims[i].critical
  }

  predicate CriticalPass(claims: seq<Claim>) {
    forall i | 0 <= i < |claims| :: claims[i].critical ==> Passing(claims[i].state)
  }

  predicate OpenCriticalUnknown(unknowns: seq<Unknown>) {
    exists i | 0 <= i < |unknowns| :: unknowns[i].critical && !unknowns[i].resolved
  }

  predicate AnyVerified(claims: seq<Claim>) {
    exists i | 0 <= i < |claims| :: claims[i].critical && claims[i].state.ExternallyVerified?
  }

  /** One condition per partially supported critical claim, in claim order. */
  function PartialConditions(claims: seq<Claim>): seq<string> {
    if claims == [] then []
    else
      var last := claims[|claims| - 1];
      PartialConditions(claims[..|claims| - 1])
      + if last.critical && last.state.PartiallySupported? then ["Resolve partial support: " + last.statement] else []
  }

  function Conditions(claims: seq<Claim>): seq<string> {
    PartialConditions(claims) + if AnyVerified(claims) then [ROLLOUT] else []
  }

  /** The evidence gates: what must hold for any verdict that can lead to action. */
  predicate Gates(claims: seq<Claim>, unknowns: seq<Unknown>) {
    && AnyCritical(claims)
    && !AnyIn(claims, ClaimState.Rejected) && !AnyIn(claims, ClaimState.Contradicted)
    && CriticalPass(claims)
    && !OpenCriticalUnknown(unknowns)
  }

  /** The early returns and passes of `Evaluate`, in the code's order. Each verdict is
      characterised outright, and action is allowed exactly behind the gates. */
  method Evaluate(claims: seq<Claim>, unknowns: seq<Unknown>, humanApproved: bool) returns (result: Result)
    ensures result.actionAllowed <==> humanApproved && Gates(claims, unknowns)
    ensures result.verdict.RejectedVerdict? <==> AnyIn(claims, ClaimState.Rejected)
    ensures result.verdict.ContradictedVerdict? <==>
              !AnyIn(claims, ClaimState.Rejected) && AnyCritical(claims) && AnyIn(claims, ClaimState.Contradicted)
    ensures result.verdict.Verified? || result.verdict.VerifiedWithConditions? <==> Gates(claims, unknowns)
    ensures Gates(claims, unknowns) ==> result.conditions == Conditions(claims)
    ensures !Gates(claims, unknowns) ==> result.conditions == []
    ensures result.verdict.Verified? ==> result.conditions == []
    ensures result.verdict.VerifiedWithConditions? ==> result.conditions != []
    ensures result == Judge(claims, unknowns, humanApproved)
  {
    if |claims| == 0 {
      return Result(InsufficientEvidence, [], false);
    }
    var hasCriticalClaim := false;
    for i := 0 to |claims|
      invariant hasCriticalClaim <==> AnyCritical(claims[..i])
      invariant !AnyIn(claims[..i], ClaimState.Rejected)
    {
      hasCriticalClaim := hasCriticalClaim || claims[i].critical;
      if claims[i].state.Rejected? {
        return Result(RejectedVerdict, [], false);
      }
    }
    assert claims[..|claims|] == claims;
    if !hasCriticalClaim {
      return Result(InsufficientEvidence, [], false);
    }
    for i := 0 to |claims|
      invariant !AnyIn(claims[..i], ClaimState.Contradicted)
    {
      if claims[i].state.Contradicted? {
        return Result(ContradictedVerdict, [], false);
      }
    }
    var conditions: seq<string> := [];
    var hasExternalVerification := false;
    for i := 0 to |claims|
      invariant conditions == PartialConditions(claims[..i])
      invariant hasExternalVerification <==> AnyVerified(claims[..i])
      invariant CriticalPass(claims[..i])
    {
      assert claims[..i + 1][..i] == claims[..i];
      if claims[i].critical {
        match claims[i].state
        case Supported =>
        case ExternallyVerified =>
          hasExternalVerification := true;
        case PartiallySupported =>
          conditions := conditions + ["Resolve partial support: " + claims[i].statement];
        case _ =>
          return Result(InsufficientEvidence, [], false);
      }
    }
    for i := 0 to |unknowns|
      invariant !OpenCriticalUnknown(unknowns[..i])
    {
      if unknowns[i].critical && !unknowns[i].resolved {
        return Result(InsufficientEvidence, [], false);
      }
    }
    assert unknowns[..|unknowns|] == unknowns;
    if hasExternalVerification {
      conditions := conditions + [ROLLOUT];
    }
    var verdict := if |conditions| > 0 then VerifiedWithConditions else Verified;
    result := Result(verdict, conditions, humanApproved);
  }

  /** The result as a function, for the lemmas about stored decisions. */
  function Judge(claims: seq<Claim>, unknowns: seq<Unknown>, humanApproved: bool): Result {
    if Gates(claims, unknowns) then
      Result(if Conditions(claims) == [] then Verified else VerifiedWithConditions, Conditions(claims), humanApproved)
    else if AnyIn(claims, ClaimState.Rejected) then Result(RejectedVerdict, [], false)
    else if AnyCritical(claims) && AnyIn(claims, ClaimState.Contradicted) then Result(ContradictedVerdict, [], false)
    else Result(InsufficientEvidence, [], false)
  }

  lemma {:induction false} NoConditionNoPartial(claims: seq<Claim>, i: nat)
    requires i < |claims| && claims[i].critical && claims[i].state.PartiallySupported?
    ensures PartialConditions(claims) != []
  {
    var last := |claims| - 1;
    if i < last {
      assert claims[..last][i] == claims[i];
      NoConditionNoPartial(claims[..last], i);
    }
  }

  /** An unconditional VERIFIED means: every critical claim is plainly supported. */
  lemma VerifiedMeansAllSupported(claims: seq<Claim>, unknowns: seq<Unknown>, approved: bool)
    requires Judge(claims, unknowns, approved).verdict.Verified?
    ensures AnyCritical(claims)
    ensures forall i | 0 <= i < |claims| && claims[i].critical :: claims[i].state.Supported?
  {
    forall i | 0 <= i < |claims| && claims[i].critical ensures claims[i].state.Supported? {
      if claims[i].state.PartiallySupported? {
        NoConditionNoPartial(claims, i);
      }
    }
  }

  /** VERIFIED exactly: behind the gates, with nothing partial and nothing externally verified. */
  lemma VerifiedExactly(claims: seq<Claim>, unknowns: seq<Unknown>, approved: bool)
    ensures Judge(claims, unknowns, approved).verdict.Verified? <==>
              Gates(claims, unknowns) && !AnyPartial(claims) && !AnyVerified(claims)
    ensures Judge(claims, unknowns, approved).verdict.VerifiedWithConditions? <==>
              Gates(claims, unknowns) && (AnyPartial(claims) || AnyVerified(claims))
  {
    PartialConditionsEmpty(claims);
  }

  /** Verdicts depend on which claims and unknowns there are, not on how they are listed. */
  lemma VerdictIgnoresOrder(a: seq<Claim>, b: seq<Claim>, u: seq<Unknown>, w: seq<Unknown>, approved: bool)
    requires (forall c :: c in a <==> c in b) && (forall x :: x in u <==> x in w)
    ensures Judge(a, u, approved).verdict == Judge(b, w, approved).verdict
    ensures Judge(a, u, approved).actionAllowed == Judge(b, w, approved).actionAllowed
  {
    SameMembersSameTests(a, b);
    SameMembersSameTests(b, a);
    UnknownsByMember(u, w);
    UnknownsByMember(w, u);
    PartialConditionsEmpty(a);
    PartialConditionsEmpty(b);
  }

  predicate AnyPartial(claims: seq<Claim>) {
    exists i | 0 <= i < |claims| :: claims[i].critical && claims[i].state.PartiallySupported?
  }

  lemma UnknownsByMember(u: seq<Unknown>, w: seq<Unknown>)
    requires forall x :: x in u ==> x in w
    ensures OpenCriticalUnknown(u) ==> OpenCriticalUnknown(w)
  {
    if OpenCriticalUnknown(u) {
      var i :| 0 <= i < |u| && u[i].critical && !u[i].resolved;
      assert u[i] in w;
    }
  }

  lemma SameMembersSameTests(a: seq<Claim>, b: seq<Claim>)
    requires forall c :: c in a ==> c in b
    ensures forall s :: AnyIn(a, s) ==> AnyIn(b, s)
    ensures AnyCritical(a) ==> AnyCritical(b)
    ensures AnyVerified(a) ==> AnyVerified(b)
    ensures AnyPartial(a) ==> AnyPartial(b)
    ensures CriticalPass(b) ==> CriticalPass(a)
  {
    forall i | 0 <= i < |a| ensures exists j | 0 <= j < |b| :: b[j] == a[i] {
      assert a[i] in b;
    }
  }

  lemma {:induction false} PartialConditionsEmpty(claims: seq<Claim>)
    ensures PartialConditions(claims) == [] <==> !AnyPartial(claims)
  {
    if claims != [] {
      var front := claims[..|claims| - 1];
      PartialConditionsEmpty(front);
      assert forall i | 0 <= i < |front| :: front[i] == claims[i];
    }
  }

  // ---- The result, in terms of claims and unknowns alone

  /** A verdict that can lead to action needs a critical claim, no rejected or contradicted
      claim, every critical claim at least partially supported, and no critical unknown open. */
  ghost predicate Passable(claims: seq<Claim>, unknowns: seq<Unknown>) {
    && (exists i | 0 <= i < |claims| :: claims[i].critical)
    && (forall i | 0 <= i < |claims| :: !claims[i].state.Rejected? && !claims[i].state.Contradicted?)
    && (forall i | 0 <= i < |claims| && claims[i].critical ::
          claims[i].state.Supported? || claims[i].state.ExternallyVerified? || claims[i].state.PartiallySupported?)
    && (forall i | 0 <= i < |unknowns| && unknowns[i].critical :: unknowns[i].resolved)
  }

  ghost predicate NoneOpen(unknowns: seq<Unknown>) {
    forall i | 0 <= i < |unknowns| && unknowns[i].critical :: unknowns[i].resolved
  }

  lemma PassableSplits(claims: seq<Claim>, unknowns: seq<Unknown>)
    ensures Passable(claims, unknowns) <==> Passable(claims, []) && NoneOpen(unknowns)
  {
  }

  ghost function PartialAt(claims: seq<Claim>): nat -> bool {
    (i: nat) => i < |claims| && claims[i].critical && claims[i].state.PartiallySupported?
  }

  ghost predicate SomeVerified(claims: seq<Claim>) {
    exists i | 0 <= i < |claims| :: claims[i].critical && claims[i].state.ExternallyVerified?
  }

  /** One line per critical partially supported claim, in claim order, then the rollout line
      when a critical claim is externally verified. */
  ghost predicate ConditionsFor(conditions: seq<string>, claims: seq<Claim>) {
    exists at: seq<nat> ::
      && Selects(at, |claims|, PartialAt(claims))
      && |conditions| == |at| + (if SomeVerified(claims) then 1 else 0)
      && (forall k | 0 <= k < |at| :: at[k] < |claims| && conditions[k] == "Resolve partial support: " + claims[at[k]].statement)
      && (SomeVerified(claims) ==>
            conditions[|at|] == "Retain verification artifacts and monitor the first staged rollout.")
  }

  lemma {:induction false} PartialsSelected(claims: seq<Claim>, n: nat) returns (at: seq<nat>)
    requires n <= |claims|
    ensures Selects(at, n, PartialAt(claims)) && |PartialConditions(claims[..n])| == |at|
    ensures forall k | 0 <= k < |at| ::
              at[k] < |claims| && PartialConditions(claims[..n])[k] == "Resolve partial support: " + claims[at[k]].statement
  {
    if n == 0 {
      at := [];
    } else {
      var front := PartialsSelected(claims, n - 1);
      at := OneMoreSelected(front, n - 1, PartialAt(claims));
      assert claims[..n][..n - 1] == claims[..n - 1];
    }
  }

  /** The conditions are the promised lines. */
  lemma ConditionsAreSelected(claims: seq<Claim>)
    ensures ConditionsFor(Conditions(claims), claims)
  {
    hide PartialConditions, PartialAt;
    var at := PartialsSelected(claims, |claims|);
    assert claims[..|claims|] == claims;
    assert AnyVerified(claims) <==> SomeVerified(claims);
  }

  /** Every verdict, the permission and the conditions. */
  lemma JudgedExactly(claims: seq<Claim>, unknowns: seq<Unknown>, approved: bool)
    ensures var r := Judge(claims, unknowns, approved);
            && (r.actionAllowed <==> approved && Passable(claims, unknowns))
            && (r.verdict.Verified? || r.verdict.VerifiedWithConditions? <==> Passable(claims, unknowns))
            && (r.verdict.Verified? ==> forall i | 0 <= i < |claims| && claims[i].critical :: claims[i].state.Supported?)
            && (r.verdict.VerifiedWithConditions? ==>
                  exists i | 0 <= i < |claims| :: claims[i].critical && !claims[i].state.Supported?)
            && (r.verdict.RejectedVerdict? <==> exists i | 0 <= i < |claims| :: claims[i].state.Rejected?)
            && (r.verdict.ContradictedVerdict? <==>
                  && (forall i | 0 <= i < |claims| :: !claims[i].state.Rejected?)
                  && (exists i | 0 <= i < |claims| :: claims[i].critical)
                  && (exists i | 0 <= i < |claims| :: claims[i].state.Contradicted?))
            && (if Passable(claims, unknowns) then ConditionsFor(r.conditions, claims) else r.conditions == [])
  {
    hide Conditions, ConditionsFor, PartialConditions;
    GatesAreWritten(claims, unknowns);
    ConditionsAreSelected(claims);
    VerifiedExactly(claims, unknowns, approved);
    AnyInIsWritten(claims, ClaimState.Rejected);
    AnyInIsWritten(claims, ClaimState.Contradicted);
  }

  lemma AnyInIsWritten(claims: seq<Claim>, state: ClaimState)
    ensures AnyIn(claims, state) <==> exists i | 0 <= i < |claims| :: claims[i].state == state
  {
  }

  lemma GatesAreWritten(claims: seq<Claim>, unknowns: seq<Unknown>)
    ensures Gates(claims, unknowns) <==> Passable(claims, unknowns)
  {
    if Gates(claims, unknowns) {
      assert forall i | 0 <= i < |claims| :: claims[i].state != ClaimState.Rejected && claims[i].state != ClaimState.Contradicted;
    }
  }
}
