/** Which checks are planned, and what executing one does to its claim and its decision. */
module CheckEffects {
  import opened Text
  import opened Domain
  import opened Store
  import opened Service
  import opened Lifecycle
  import opened RunHistory
  import opened Selection
  import opened IssuedCertificates
  import Policy

  // ---- Planning

  /** A critical claim needs a check unless it is supported or externally verified. */
  ghost function NeedsAt(claims: seq<Claim>): nat -> bool {
    (i: nat) => i < |claims| && claims[i].critical && claims[i].state != ClaimState.Supported
                && claims[i].state != ClaimState.ExternallyVerified
  }

  ghost predicate CheckMade(v: Verification, c: Claim, d: string, spec: Claim -> (string, string), n: nat, now: int) {
    && v.id == NewId("ver", n) && v.decision == d && v.claim == c.id
    && v.check == "Create and run the smallest targeted check for: " + c.statement
    && v.kind == spec(c).0 && v.specification == spec(c).1 && v.environment == "sandbox" && v.status == Planned
    && v.requiresApproval && !v.approved && v.approvedBy == "" && v.outcome == "" && v.artifact == "" && v.artifactHash == ""
    && v.createdAt == now && v.executedAt == None
  }

  /** One check for each claim that needs one, in claim order, and none for any other. */
  ghost predicate PlannedChecks(out: seq<Verification>, claims: seq<Claim>, d: string, spec: Claim -> (string, string), n: nat, now: int) {
    exists at: seq<nat> ::
      && Selects(at, |claims|, NeedsAt(claims)) && |out| == |at|
      && forall k | 0 <= k < |at| :: at[k] < |claims| && CheckMade(out[k], claims[at[k]], d, spec, n + k, now)
  }

  lemma {:induction false} ChecksSelected(claims: seq<Claim>, m: nat, d: string, spec: Claim -> (string, string), n: nat, now: int)
      returns (at: seq<nat>)
    requires m <= |claims|
    ensures var out := Checks(claims[..m], d, spec, n, now);
            && Selects(at, m, NeedsAt(claims)) && |out| == |at|
            && forall k | 0 <= k < |at| :: at[k] < |claims| && CheckMade(out[k], claims[at[k]], d, spec, n + k, now)
  {
    hide NewId, Checks, NeedsAt, CheckMade;
    if m == 0 {
      at := [];
      NothingPlanned(claims, d, spec, n, now);
    } else {
      var front := ChecksSelected(claims, m - 1, d, spec, n, now);
      at := OneMoreSelected(front, m - 1, NeedsAt(claims));
      OneMorePlanned(claims, m - 1, d, spec, n, now);
    }
  }

  lemma NothingPlanned(claims: seq<Claim>, d: string, spec: Claim -> (string, string), n: nat, now: int)
    ensures Checks(claims[..0], d, spec, n, now) == [] && Selects([], 0, NeedsAt(claims))
  {
  }

  lemma OneMorePlanned(claims: seq<Claim>, m: nat, d: string, spec: Claim -> (string, string), n: nat, now: int)
    requires m < |claims|
    ensures var front, all := Checks(claims[..m], d, spec, n, now), Checks(claims[..m + 1], d, spec, n, now);
            if NeedsAt(claims)(m) then
              |all| == |front| + 1 && all[..|front|] == front && CheckMade(all[|front|], claims[m], d, spec, n + |front|, now)
            else all == front
  {
    hide NewId;
    assert claims[..m + 1][..m] == claims[..m];
  }

  lemma ChecksArePlanned(claims: seq<Claim>, d: string, spec: Claim -> (string, string), n: nat, now: int)
    ensures PlannedChecks(Checks(claims, d, spec, n, now), claims, d, spec, n, now)
  {
    var at := ChecksSelected(claims, |claims|, d, spec, n, now);
    assert claims[..|claims|] == claims;
  }

  /** The checks of these are stored beside the old ones. */
  ghost predicate StoredBeside(a: map<string, Verification>, b: map<string, Verification>, out: seq<Verification>) {
    && (forall k | k in a :: k in b && b[k] == a[k])
    && (forall k | k in b && k !in a :: b[k] in out)
    && (forall v | v in out :: v.id !in a && v.id in b && b[v.id] == v)
  }

  /** The first plan of a decision returns and stores exactly these checks. */
  lemma FirstPlan(w: World, d: string, spec: Claim -> (string, string), hashes: Hashes, now: int) returns (claims: seq<Claim>)
    requires Inv(w, hashes) && d in w.db.decisions
    requires forall k | k in w.db.verifications :: w.db.verifications[k].decision != d
    ensures ListsClaims(w.db, d, claims)
    ensures var (t, result) := Service.Plan(w.db, d, spec, w.drawn, now);
            && result.Ok? && PlannedChecks(result.value, claims, d, spec, w.drawn, now)
            && t == w.db.(verifications := t.verifications) && StoredBeside(w.db.verifications, t.verifications, result.value)
  {
    hide *;
    InvParts(w, hashes);
    claims := ClaimsOf(w.db, d);
    ClaimsAreListed(w.db, d);
    NothingListed(w.db, d);
    PlanAnswers(w.db, d, spec, w.drawn, now);
    ChecksArePlanned(claims, d, spec, w.drawn, now);
    var out := Checks(claims, d, spec, w.drawn, now);
    PlannedIds(out, claims, d, spec, w.drawn, now);
    CountsChecks(w.db, w.drawn);
    NewChecksStored(w.db, out, w.drawn);
  }

  lemma PlanAnswers(db: Db, d: string, spec: Claim -> (string, string), n: nat, now: int)
    requires KeyedById(db) && RunsLinked(db.runs, db.decisions) && d in db.decisions
    ensures var listed, out := VerificationsOf(db, d), Checks(ClaimsOf(db, d), d, spec, n, now);
            Service.Plan(db, d, spec, n, now)
            == if listed != [] then (db, Ok(listed))
               else (db.(verifications := PutAll(db.verifications, out, VerificationId)), Ok(out))
  {
    hide Checks, VerificationsOf, ClaimsOf, Project;
    GraphOfDecision(db, d);
  }

  lemma CountsChecks(db: Db, n: nat)
    requires Counted(db, n)
    ensures Lifecycle.Numbered(db.verifications, "ver", n)
  {
  }

  lemma NothingListed(db: Db, d: string)
    requires KeyedById(db) && forall k | k in db.verifications :: db.verifications[k].decision != d
    ensures VerificationsOf(db, d) == []
  {
    var listed := VerificationsOf(db, d);
    ListingHolds(db.verifications, (v: Verification) => v.decision == d, VerificationId);
    assert forall v :: v !in listed;
    NoMembersMeansEmpty(listed);
  }

  lemma PlannedIds(out: seq<Verification>, claims: seq<Claim>, d: string, spec: Claim -> (string, string), n: nat, now: int)
    requires PlannedChecks(out, claims, d, spec, n, now)
    ensures forall k | 0 <= k < |out| :: out[k].id == NewId("ver", n + k)
  {
  }

  lemma NewChecksStored(db: Db, out: seq<Verification>, n: nat)
    requires Lifecycle.Numbered(db.verifications, "ver", n) && forall k | 0 <= k < |out| :: out[k].id == NewId("ver", n + k)
    ensures StoredBeside(db.verifications, PutAll(db.verifications, out, VerificationId), out)
  {
    PutNumbered(db.verifications, out, VerificationId, "ver", n, n + |out|);
    forall v | v in out ensures v.id !in db.verifications && v.id in PutAll(db.verifications, out, VerificationId)
                                && PutAll(db.verifications, out, VerificationId)[v.id] == v {
      assert VerificationId(v) == v.id;
    }
  }

  /** A later plan returns the stored checks and stores nothing; an unknown decision has none. */
  lemma LaterPlan(w: World, d: string, spec: Claim -> (string, string), hashes: Hashes, now: int)
    requires Inv(w, hashes)
    requires d !in w.db.decisions || exists k :: k in w.db.verifications && w.db.verifications[k].decision == d
    ensures var (t, result) := Service.Plan(w.db, d, spec, w.drawn, now);
            && t == w.db
            && (if d in w.db.decisions then result.Ok? && ListsChecks(w.db, d, result.value) else result == Failed(NotFound))
  {
    hide Inv, ListsChecks, Tables, Replayed, KeyedById, Counted, RunsLinked, Owned, CertificatesOk;
    InvParts(w, hashes);
    if d in w.db.decisions {
      PlanAnswers(w.db, d, spec, w.drawn, now);
      ChecksAreListed(w.db, d);
      SomethingListed(w.db, d);
    }
  }

  lemma SomethingListed(db: Db, d: string)
    requires KeyedById(db) && exists k :: k in db.verifications && db.verifications[k].decision == d
    ensures VerificationsOf(db, d) != []
  {
    var k :| k in db.verifications && db.verifications[k].decision == d;
    ListingHolds(db.verifications, (v: Verification) => v.decision == d, VerificationId);
    assert VerificationId(db.verifications[k]) == k;
    assert db.verifications[k] in VerificationsOf(db, d);
  }

  // ---- Executing

  ghost function EnvironmentFor(v: Verification, input: CheckInput): string {
    if input.environment != "" then input.environment else v.environment
  }

  /** A check runs once, in the sandbox or in staging, with the approval it asks for. */
  ghost predicate Admits(v: Verification, input: CheckInput) {
    && !v.status.Completed? && (EnvironmentFor(v, input) == "sandbox" || EnvironmentFor(v, input) == "staging")
    && (v.requiresApproval ==> input.approved)
  }

  lemma RefusedExecution(db: Db, id: string, input: CheckInput, executed: Option<(string, string)>, hashes: Hashes, now: int)
    requires id !in db.verifications || !Admits(db.verifications[id], input)
    ensures Service.ExecuteVerification(db, id, input, executed, hashes, now)
            == (db, Failed(if id !in db.verifications then NotFound else if db.verifications[id].status.Completed? then Conflict else Invalid))
  {
  }

  ghost function Approved(v: Verification, input: CheckInput): Verification {
    v.(approved := true, approvedBy := if input.approvedBy != "" then input.approvedBy else "human-reviewer")
  }

  /** The caller brings a result, or asks for the check to be run. */
  ghost predicate BringsResult(input: CheckInput) { input.outcome != "" || input.artifact != "" }

  lemma ExecutionAnswers(db: Db, id: string, input: CheckInput, executed: Option<(string, string)>, hashes: Hashes, now: int)
    requires id in db.verifications && Admits(db.verifications[id], input)
    ensures var v := db.verifications[id];
            var running := Approved(v, input).(status := Running);
            Service.ExecuteVerification(db, id, input, executed, hashes, now)
            == if BringsResult(input) then Finish(db, Approved(v, input), EnvironmentFor(v, input), input.outcome, input.artifact, hashes, now)
               else if executed.None? then (UpdateVerification(db, running), Failed(ExecutorFailed))
               else Finish(UpdateVerification(db, running), running, EnvironmentFor(v, input), executed.value.0, executed.value.1, hashes, now)
  {
    hide UpdateVerification, Finish;
    var v := db.verifications[id];
    assert Approve(v, input) == Approved(v, input);
  }

  lemma FinishAnswers(db: Db, v: Verification, environment: string, outcome: string, artifact: string, hashes: Hashes, now: int)
    requires v.id in db.verifications
    ensures var done := v.(environment := environment, outcome := outcome, artifact := artifact,
                           artifactHash := hashes.artifact(artifact), status := Completed, executedAt := Some(now));
            Finish(db, v, environment, outcome, artifact, hashes, now)
            == if outcome in ["passed", "failed"] && artifact != "" then (UpdateVerification(db, done), Ok(done)) else (db, Failed(Invalid))
  {
    hide UpdateVerification;
  }

  /** An admitted check that cannot be run stays behind as running. */
  lemma FailedRun(w: World, id: string, input: CheckInput, hashes: Hashes, now: int)
    requires Inv(w, hashes) && id in w.db.verifications && Admits(w.db.verifications[id], input) && !BringsResult(input)
    ensures Service.ExecuteVerification(w.db, id, input, None, hashes, now)
            == (w.db.(verifications := w.db.verifications[id := Approved(w.db.verifications[id], input).(status := Running)]),
                Failed(ExecutorFailed))
  {
    hide *;
    CheckKeepsItsId(w, id, hashes);
    AdmittedIsOpen(w.db.verifications[id], input);
    ExecutionAnswers(w.db, id, input, None, hashes, now);
    RunningUpdate(w, w.db.verifications[id], input, hashes);
  }

  lemma CheckKeepsItsId(w: World, id: string, hashes: Hashes)
    requires Inv(w, hashes) && id in w.db.verifications
    ensures w.db.verifications[id].id == id
  {
    hide Replayed;
    assert VerificationId(w.db.verifications[id]) == id;
  }

  lemma RunningUpdate(w: World, v: Verification, input: CheckInput, hashes: Hashes)
    requires Inv(w, hashes) && v.id in w.db.verifications && w.db.verifications[v.id] == v && !v.status.Completed?
    ensures var running := Approved(v, input).(status := Running);
            UpdateVerification(w.db, running) == w.db.(verifications := w.db.verifications[v.id := running])
  {
    hide Tables, ClaimsReplay, UnknownsReplay, OneCheckEach;
    assert CheckOk(v, w.db.claims, hashes);
  }

  ghost function Outcome(input: CheckInput, executed: (string, string)): string {
    if BringsResult(input) then input.outcome else executed.0
  }

  ghost function Artifact(input: CheckInput, executed: (string, string)): string {
    if BringsResult(input) then input.artifact else executed.1
  }

  /** A result that is no outcome or comes without an artifact is refused; a check that was
      run for it stays behind as running. */
  lemma UselessResult(w: World, id: string, input: CheckInput, executed: (string, string), hashes: Hashes, now: int)
    requires Inv(w, hashes) && id in w.db.verifications && Admits(w.db.verifications[id], input)
    requires (Outcome(input, executed) != "passed" && Outcome(input, executed) != "failed") || Artifact(input, executed) == ""
    ensures Service.ExecuteVerification(w.db, id, input, Some(executed), hashes, now)
            == (if BringsResult(input) then w.db
                else w.db.(verifications := w.db.verifications[id := Approved(w.db.verifications[id], input).(status := Running)]),
                Failed(Invalid))
  {
    hide UpdateVerification, Finish, Service.ExecuteVerification, Inv, Admits;
    CheckKeepsItsId(w, id, hashes);
    var v := w.db.verifications[id];
    AdmittedIsOpen(v, input);
    ExecutionAnswers(w.db, id, input, Some(executed), hashes, now);
    if BringsResult(input) {
      FinishAnswers(w.db, Approved(v, input), EnvironmentFor(v, input), input.outcome, input.artifact, hashes, now);
    } else {
      var running := Approved(v, input).(status := Running);
      RunningUpdate(w, v, input, hashes);
      FinishAnswers(UpdateVerification(w.db, running), running, EnvironmentFor(v, input), executed.0, executed.1, hashes, now);
    }
  }

  lemma AdmittedIsOpen(v: Verification, input: CheckInput)
    requires Admits(v, input)
    ensures !v.status.Completed?
  {
  }

  /** A passed check verifies its claim externally, a failed one contradicts it; the rest of
      the claim is kept. */
  ghost predicate ClaimChecked(c: Claim, outcome: string, r: Claim) {
    && (outcome == "passed" ==> r == c.(state := ClaimState.ExternallyVerified, support := c.support.(direct := 1.0, value := 1.0)))
    && (outcome == "failed" ==> r == c.(state := ClaimState.Contradicted, support := c.support.(burden := 1.0, value := 0.0)))
  }

  /** The four tables after a completed check: the check, its claim, one relation from the
      claim to the check, and, if it passed, the critical unknowns of its decision resolved. */
  ghost predicate Completes(a: Db, b: Db, done: Verification) {
    && b == a.(verifications := b.verifications, claims := b.claims, relations := b.relations, unknowns := b.unknowns)
    && b.verifications == a.verifications[done.id := done]
    && done.claim in a.claims && done.claim in b.claims && b.claims == a.claims[done.claim := b.claims[done.claim]]
    && ClaimChecked(a.claims[done.claim], done.outcome, b.claims[done.claim])
    && (var key := "rel_verified_" + done.id;
        b.relations == a.relations[key := Relation(key, done.claim, done.id, VerifiedBy,
                                                   "Controlled verification " + done.outcome + "; artifact " + done.artifactHash)])
    && b.unknowns.Keys == a.unknowns.Keys
    && forall k | k in a.unknowns ::
         b.unknowns[k] == if done.outcome == "passed" && a.unknowns[k].decision == done.decision && a.unknowns[k].critical
                          then a.unknowns[k].(resolved := true) else a.unknowns[k]
  }

  lemma UpdateCompletes(db: Db, done: Verification)
    requires Keyed(db.claims, ClaimId) && done.claim in db.claims && done.outcome in ["passed", "failed"]
    ensures Completes(db, UpdateVerification(db, done), done)
  {
    hide UpdateVerification, CheckRelation, ResolveCritical, AfterPass, AfterFailure, Checked;
    CompletedUpdate(db, done);
    var c := db.claims[done.claim];
    assert ClaimId(c) == done.claim;
    CheckedClaim(c, done);
    RelationOfCheck(Checked(c, done), done);
    CriticalResolved(db.unknowns, done.decision);
  }

  lemma CheckedClaim(c: Claim, v: Verification)
    requires v.outcome in ["passed", "failed"]
    ensures Checked(c, v).id == c.id && ClaimChecked(c, v.outcome, Checked(c, v))
  {
  }

  lemma RelationOfCheck(c: Claim, v: Verification)
    requires v.outcome in ["passed", "failed"]
    ensures CheckRelation(c, v) == Relation("rel_verified_" + v.id, c.id, v.id, VerifiedBy,
                                            "Controlled verification " + v.outcome + "; artifact " + v.artifactHash)
    ensures VerifiedRelationId(v.id) == "rel_verified_" + v.id
  {
    assert "Controlled verification passed; artifact " == "Controlled verification " + "passed" + "; artifact ";
    assert "Controlled verification failed; artifact " == "Controlled verification " + "failed" + "; artifact ";
  }

  lemma CriticalResolved(unknowns: map<string, Unknown>, d: string)
    ensures var after := ResolveCritical(unknowns, d);
            && after.Keys == unknowns.Keys
            && forall k | k in unknowns ::
                 after[k] == if unknowns[k].decision == d && unknowns[k].critical then unknowns[k].(resolved := true) else unknowns[k]
  {
  }

  /** An update without a decisive outcome stores the check and nothing else. */
  lemma UndecidedUpdate(db: Db, v: Verification)
    requires v.outcome !in ["passed", "failed"]
    ensures UpdateVerification(db, v) == db.(verifications := db.verifications[v.id := v])
  {
  }

  lemma ReplacedCheckCompletes(a: Db, started: Db, b: Db, done: Verification, running: Verification)
    requires started == a.(verifications := a.verifications[done.id := running]) && Completes(started, b, done)
    ensures Completes(a, b, done)
  {
    assert a.verifications[done.id := running][done.id := done] == a.verifications[done.id := done];
  }

  ghost predicate CheckDone(v: Verification, input: CheckInput, executed: (string, string), hashes: Hashes, now: int, done: Verification) {
    done == Approved(v, input).(environment := EnvironmentFor(v, input), outcome := Outcome(input, executed),
                                artifact := Artifact(input, executed), artifactHash := hashes.artifact(Artifact(input, executed)),
                                status := Completed, executedAt := Some(now))
  }

  /** Any other result completes the check. */
  lemma CompletedExecution(w: World, id: string, input: CheckInput, executed: (string, string), hashes: Hashes, now: int)
    requires Inv(w, hashes) && id in w.db.verifications && Admits(w.db.verifications[id], input)
    requires Outcome(input, executed) in ["passed", "failed"] && Artifact(input, executed) != ""
    ensures var (t, result) := Service.ExecuteVerification(w.db, id, input, Some(executed), hashes, now);
            && result.Ok? && CheckDone(w.db.verifications[id], input, executed, hashes, now, result.value)
            && Completes(w.db, t, result.value)
  {
    hide Completes, UpdateVerification, Finish, Service.ExecuteVerification, Inv, Admits, Tables, Replayed, KeyedById, Counted,
         RunsLinked, Owned, CertificatesOk, Lifecycle.Numbered;
    InvParts(w, hashes);
    CheckKeepsItsId(w, id, hashes);
    CheckHasAClaim(w, id, hashes);
    var v := w.db.verifications[id];
    AdmittedIsOpen(v, input);
    ExecutionAnswers(w.db, id, input, Some(executed), hashes, now);
    var done := Approved(v, input).(environment := EnvironmentFor(v, input), outcome := Outcome(input, executed),
                                    artifact := Artifact(input, executed), artifactHash := hashes.artifact(Artifact(input, executed)),
                                    status := Completed, executedAt := Some(now));
    if BringsResult(input) {
      FinishAnswers(w.db, Approved(v, input), EnvironmentFor(v, input), input.outcome, input.artifact, hashes, now);
      UpdateCompletes(w.db, done);
    } else {
      var running := Approved(v, input).(status := Running);
      RunningUpdate(w, v, input, hashes);
      FinishAnswers(UpdateVerification(w.db, running), running, EnvironmentFor(v, input), executed.0, executed.1, hashes, now);
      RunCompletes(w.db, running, done);
    }
  }

  lemma RunCompletes(db: Db, running: Verification, done: Verification)
    requires UpdateVerification(db, running) == db.(verifications := db.verifications[running.id := running]) && done.id == running.id
    requires Keyed(db.claims, ClaimId) && done.claim in db.claims && done.outcome in ["passed", "failed"]
    ensures Completes(db, UpdateVerification(UpdateVerification(db, running), done), done)
  {
    hide Completes, UpdateVerification;
    var started := UpdateVerification(db, running);
    UpdateCompletes(started, done);
    ReplacedCheckCompletes(db, started, UpdateVerification(started, done), done, running);
  }

  lemma CheckHasAClaim(w: World, id: string, hashes: Hashes)
    requires Inv(w, hashes) && id in w.db.verifications
    ensures w.db.verifications[id].claim in w.db.claims && w.db.claims[w.db.verifications[id].claim].decision == w.db.verifications[id].decision
  {
    hide Tables, ClaimsReplay, UnknownsReplay, OneCheckEach;
    assert CheckOk(w.db.verifications[id], w.db.claims, hashes);
  }

  // ---- Over whole histories

  /** The completed check of this claim, if any. */
  ghost predicate CheckedBy(db: Db, claim: string, k: string, outcome: string) {
    k in db.verifications && db.verifications[k].claim == claim && db.verifications[k].status.Completed? && db.verifications[k].outcome == outcome
  }

  /** In every reachable state a claim is as its analysis saved it, unless its check passed or
      failed; then exactly state and support say so. */
  lemma ClaimsFollowTheirChecks(worlds: seq<World>, calls: seq<Call>, times: seq<int>, hashes: Hashes, i: nat, claim: string)
    requires History(worlds, calls, times, hashes) && i < |worlds| && claim in worlds[i].db.claims
    ensures var w := worlds[i];
            && claim in w.analysed
            && (forall k, outcome | CheckedBy(w.db, claim, k, outcome) ::
                  outcome in ["passed", "failed"] && ClaimChecked(w.analysed[claim], outcome, w.db.claims[claim]))
            && ((forall k, outcome :: !CheckedBy(w.db, claim, k, outcome)) ==> w.db.claims[claim] == w.analysed[claim])
  {
    hide History, Tables;
    ReachableKeepsInv(worlds, calls, times, hashes, i);
    var w := worlds[i];
    ClaimFollowsItsCheck(w, claim, hashes);
  }

  lemma ClaimFollowsItsCheck(w: World, claim: string, hashes: Hashes)
    requires Inv(w, hashes) && claim in w.db.claims
    ensures claim in w.analysed
    ensures forall k, outcome | CheckedBy(w.db, claim, k, outcome) ::
              outcome in ["passed", "failed"] && ClaimChecked(w.analysed[claim], outcome, w.db.claims[claim])
    ensures (forall k, outcome :: !CheckedBy(w.db, claim, k, outcome)) ==> w.db.claims[claim] == w.analysed[claim]
  {
    hide Tables, UnknownsReplay, OneCheckEach;
    assert Replays(w.db.claims[claim], w.analysed[claim], w.db.verifications, claim);
    forall k, outcome | CheckedBy(w.db, claim, k, outcome)
      ensures outcome in ["passed", "failed"] && ClaimChecked(w.analysed[claim], outcome, w.db.claims[claim])
    {
      assert CheckOk(w.db.verifications[k], w.db.claims, hashes);
      assert Lifecycle.Completes(w.db.verifications, k, claim);
    }
    forall k | Lifecycle.Completes(w.db.verifications, k, claim)
      ensures exists outcome :: CheckedBy(w.db, claim, k, outcome)
    {
      assert CheckedBy(w.db, claim, k, w.db.verifications[k].outcome);
    }
  }

  /** Once a check of a decision has failed, no certificate issued afterwards allows action. */
  lemma FailedCheckBlocks(worlds: seq<World>, calls: seq<Call>, times: seq<int>, hashes: Hashes, i: nat, j: nat, d: string, k: string)
    requires History(worlds, calls, times, hashes) && i <= j < |worlds|
    requires k in worlds[i].db.verifications && worlds[i].db.verifications[k].decision == d
    requires worlds[i].db.verifications[k].status.Completed? && worlds[i].db.verifications[k].outcome == "failed"
    requires d !in worlds[i].db.certificates && d in worlds[j].db.certificates
    ensures !worlds[j].db.certificates[d].actionAllowed
  {
    hide Inv, After, Grows, Says, Cleared, ListsClaims, Service.Evaluate;
    var m := CertificateWasIssued(worlds, calls, times, hashes, i, j, d);
    ReachableKeepsInv(worlds, calls, times, hashes, m);
    HistoryGrows(worlds, calls, times, hashes, i, m);
    FirstEvaluation(worlds[m], d, calls[m].approved, hashes, times[m]);
    FailureStays(worlds[i].db, worlds[m].db, d, k);
    SaysDecides(worlds[m].db, d, calls[m].approved, worlds[j].db.certificates[d], hashes, times[m]);
    ContradictedIsNotCleared(worlds[m], d, k, worlds[j].db.certificates[d].claims, hashes);
  }

  lemma SaysDecides(db: Db, d: string, approved: bool, c: Certificate, hashes: Hashes, now: int)
    requires d in db.decisions && Says(db, d, approved, c, hashes, now)
    ensures ListsClaims(db, d, c.claims) && (c.actionAllowed ==> Cleared(db, d, c.claims))
  {
    hide HashesFor, ListsClaims, ListsChecks, Cleared, Policy.ConditionsFor;
  }

  lemma FailureStays(a: Db, b: Db, d: string, k: string)
    requires Grows(a, b) && k in a.verifications && a.verifications[k].status.Completed?
    ensures k in b.verifications && b.verifications[k] == a.verifications[k]
  {
  }

  lemma ContradictedIsNotCleared(w: World, d: string, k: string, claims: seq<Claim>, hashes: Hashes)
    requires Inv(w, hashes) && ListsClaims(w.db, d, claims)
    requires k in w.db.verifications && w.db.verifications[k].decision == d
    requires w.db.verifications[k].status.Completed? && w.db.verifications[k].outcome == "failed"
    ensures !Cleared(w.db, d, claims)
  {
    hide Inv, Cleared, ListsClaims, KeyedById;
    InvParts(w, hashes);
    CheckHasAClaim(w, k, hashes);
    var id := w.db.verifications[k].claim;
    ClaimFollowsItsCheck(w, id, hashes);
    assert CheckedBy(w.db, id, k, "failed");
    var c := w.db.claims[id];
    assert ClaimId(c) == id && c.state.Contradicted?;
    ListedContradiction(w.db, d, c, claims);
  }

  lemma ListedContradiction(db: Db, d: string, c: Claim, claims: seq<Claim>)
    requires ListsClaims(db, d, claims) && c.id in db.claims && db.claims[c.id] == c && c.decision == d && c.state.Contradicted?
    ensures !Cleared(db, d, claims)
  {
    assert c in claims;
    var i :| 0 <= i < |claims| && claims[i] == c;
  }
}
