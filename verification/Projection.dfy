/** `graph` reads back what `SaveAnalysis` and `UpdateVerification` stored, decision by
    decision (apps/control-plane/internal/store/memory.go). */
module Projection {
  import opened Text
  import opened Domain
  import opened Store
  import opened Service
  import opened Lifecycle
  import opened RunHistory
  import Relabel

  // ---- Which decision a stored object belongs to

  ghost predicate Belongs(db: Db, id: string, d: string) {
    || (id in db.claims && db.claims[id].decision == d)
    || (id in db.evidence && d in db.decisions && db.evidence[id].run == db.decisions[d].run)
    || (id in db.verifications && db.verifications[id].decision == d)
  }

  /** A relation connects two objects of one decision. */
  ghost predicate AtHome(db: Db, r: Relation) {
    exists d | d in db.decisions :: Belongs(db, r.from, d) && Belongs(db, r.to, d)
  }

  /** An ID of neither form the service gives out itself. */
  ghost predicate Foreign(id: string) {
    (forall m: nat :: id != NewId("rel", m)) && forall v: string :: id != VerifiedRelationId(v)
  }

  /** All the service's own relation IDs start alike. */
  lemma OtherPrefixIsForeign(id: string)
    requires |id| < 4 || id[..4] != "rel_"
    ensures Foreign(id)
  {
    forall m: nat ensures id != NewId("rel", m) {
      assert NewId("rel", m)[..4] == "rel_";
    }
    forall v: string ensures id != VerifiedRelationId(v) {
      assert VerifiedRelationId(v)[..4] == "rel_";
    }
  }

  ghost predicate RelationNamed(verifications: map<string, Verification>, k: string, n: nat) {
    IsId("rel", k, n) || Foreign(k) || exists v | v in verifications && verifications[v].status.Completed? :: k == VerifiedRelationId(v)
  }

  ghost predicate GraphIds(db: Db, n: nat) {
    && Lifecycle.Numbered(db.evidence, "evd", n) && Lifecycle.Numbered(db.assumptions, "asm", n)
    && forall k | k in db.relations :: RelationNamed(db.verifications, k, n)
  }

  ghost predicate AnalysedRun(runs: map<string, Run>, r: string) {
    r in runs && runs[r].status.Analyzed?
  }

  ghost predicate GraphOwned(db: Db) {
    && (forall k | k in db.evidence :: AnalysedRun(db.runs, db.evidence[k].run))
    && (forall k | k in db.assumptions :: Settled(db.runs, db.decisions, db.assumptions[k].decision))
  }

  ghost predicate GraphOk(db: Db, n: nat) {
    GraphIds(db, n) && GraphOwned(db) && forall k | k in db.relations :: AtHome(db, db.relations[k])
  }

  // ---- An object belongs to one decision only

  lemma KindsApart(p: string, q: string, k: string, m: nat, n: nat)
    requires IsId(p, k, m) && IsId(q, k, n) && |p| == |q|
    ensures p == q
  {
    var i: nat :| i < m && k == NewId(p, i);
    var j: nat :| j < n && k == NewId(q, j);
    NewIdIsInjective(p, i, q, j);
  }

  lemma BelongsOnce(db: Db, n: nat, id: string, d: string, e: string)
    requires Counted(db, n) && GraphIds(db, n) && RunsLinked(db.runs, db.decisions)
    requires Belongs(db, id, d) && Belongs(db, id, e)
    ensures d == e
  {
    if id in db.claims && id in db.evidence { KindsApart("clm", "evd", id, n, n); }
    if id in db.claims && id in db.verifications { KindsApart("clm", "ver", id, n, n); }
    if id in db.evidence && id in db.verifications { KindsApart("evd", "ver", id, n, n); }
  }

  /** Objects other than the run and the decision themselves. */
  lemma BelongsIsAnObject(db: Db, n: nat, id: string, d: string, e: string)
    requires Counted(db, n) && GraphIds(db, n) && d in db.decisions && Belongs(db, id, e)
    ensures id in Objects(db, db.decisions[d].run, d) <==> Belongs(db, id, d) || id == db.decisions[d].run
    ensures db.decisions[d].run in db.runs ==> id != db.decisions[d].run
  {
    hide Counted, GraphIds;
    if id == d {
      NotADecision(db, n, id, e);
    }
    if id == db.decisions[d].run && id in db.runs {
      NotADecision(db, n, id, e);
    }
  }

  lemma NotADecision(db: Db, n: nat, id: string, e: string)
    requires Counted(db, n) && GraphIds(db, n) && Belongs(db, id, e)
    ensures id !in db.decisions && id !in db.runs
  {
    if id in db.decisions {
      if id in db.claims { KindsApart("clm", "dec", id, n, n); }
      if id in db.evidence { KindsApart("evd", "dec", id, n, n); }
      if id in db.verifications { KindsApart("ver", "dec", id, n, n); }
    }
    if id in db.runs {
      if id in db.claims { KindsApart("clm", "run", id, n, n); }
      if id in db.evidence { KindsApart("evd", "run", id, n, n); }
      if id in db.verifications { KindsApart("ver", "run", id, n, n); }
    }
  }

  /** A decision's graph lists exactly the stored relations between its own objects: none is
      dropped and none leaks in from another decision. */
  lemma GraphListsItsOwnRelations(db: Db, n: nat, hashes: Hashes, d: string, r: Relation)
    requires Tables(db, n, hashes) && GraphOk(db, n) && d in db.decisions
    ensures r in RelationsOf(db, db.decisions[d].run, d) <==>
              r.id in db.relations && db.relations[r.id] == r && Belongs(db, r.from, d) && Belongs(db, r.to, d)
  {
    var objects := Objects(db, db.decisions[d].run, d);
    ListingHolds(db.relations, (x: Relation) => x.from in objects && x.to in objects, RelationId);
    if r.id in db.relations && db.relations[r.id] == r {
      assert AtHome(db, r);
      var e :| e in db.decisions && Belongs(db, r.from, e) && Belongs(db, r.to, e);
      BelongsIsAnObject(db, n, r.from, d, e);
      BelongsIsAnObject(db, n, r.to, d, e);
    }
    assert RelationId(r) == r.id;
  }

  // ---- Every call keeps the graph tables in order

  /** What a call leaves of the objects. */
  ghost predicate ObjectsStay(a: Db, b: Db) {
    && (forall k | k in a.claims :: k in b.claims && b.claims[k].decision == a.claims[k].decision)
    && (forall k | k in a.evidence :: k in b.evidence && b.evidence[k].run == a.evidence[k].run)
    && Forward(a.verifications, b.verifications)
  }

  lemma BelongingStays(a: Db, b: Db, id: string, d: string)
    requires ObjectsStay(a, b) && RunsStay(a, b) && Belongs(a, id, d)
    ensures Belongs(b, id, d)
  {
  }

  lemma HomesStay(a: Db, b: Db, r: Relation)
    requires ObjectsStay(a, b) && RunsStay(a, b) && AtHome(a, r)
    ensures AtHome(b, r)
  {
    var d :| d in a.decisions && Belongs(a, r.from, d) && Belongs(a, r.to, d);
    BelongingStays(a, b, r.from, d);
    BelongingStays(a, b, r.to, d);
  }

  lemma NamesStay(a: Db, b: Db, n: nat, more: nat)
    requires GraphIds(a, n) && n <= more && b.evidence == a.evidence && b.assumptions == a.assumptions
    requires b.relations == a.relations && Forward(a.verifications, b.verifications)
    ensures GraphIds(b, more)
  {
    NumberedGrows(a.evidence, "evd", n, more);
    NumberedGrows(a.assumptions, "asm", n, more);
    forall k | k in b.relations ensures RelationNamed(b.verifications, k, more) {
      NameStays(a.verifications, b.verifications, k, n, more);
    }
  }

  lemma NameStays(a: map<string, Verification>, b: map<string, Verification>, k: string, n: nat, more: nat)
    requires RelationNamed(a, k, n) && n <= more && Forward(a, b)
    ensures RelationNamed(b, k, more)
  {
    if v :| v in a && a[v].status.Completed? && k == VerifiedRelationId(v) {
      assert v in b && b[v].status.Completed?;
    }
  }

  lemma OwnersStay(a: Db, b: Db)
    requires GraphOwned(a) && RunsStay(a, b) && b.evidence == a.evidence && b.assumptions == a.assumptions
    ensures GraphOwned(b)
  {
    forall k | k in b.evidence ensures AnalysedRun(b.runs, b.evidence[k].run) {
      assert AnalysedRun(a.runs, a.evidence[k].run);
    }
    forall k | k in b.assumptions ensures Settled(b.runs, b.decisions, b.assumptions[k].decision) {
      assert Settled(a.runs, a.decisions, a.assumptions[k].decision);
    }
  }

  /** Calls that add no relation. */
  lemma QuietCallKeepsGraph(a: Db, b: Db, n: nat, more: nat)
    requires GraphOk(a, n) && n <= more && RunsStay(a, b) && ObjectsStay(a, b)
    requires b.evidence == a.evidence && b.assumptions == a.assumptions && b.relations == a.relations
    ensures GraphOk(b, more)
  {
    NamesStay(a, b, n, more);
    OwnersStay(a, b);
    forall k | k in b.relations ensures AtHome(b, b.relations[k]) {
      HomesStay(a, b, a.relations[k]);
    }
  }

  lemma CallKeepsObjects(w: World, call: Call, hashes: Hashes, now: int)
    requires Inv(w, hashes)
    ensures ObjectsClaimed(w, After(w, call, hashes, now))
  {
    hide AfterAnalysis, Inv, Relabel.Relabelled;
    var t := After(w, call, hashes, now);
    CallKeepsInv(w, call, hashes, now);
    CallGrows(w, call, hashes, now);
    if call.Analyse? && Analyses(w.db, call.run, call.proposal) {
      AnalysisAddsToHistory(w, call.run, call.proposal.value, now, hashes);
    } else {
      OtherCallsKeepHistory(w, call, hashes, now);
    }
    forall k | k in w.db.claims ensures k in t.db.claims && t.db.claims[k].decision == w.db.claims[k].decision {
      AnalysedDecisions(w, k, hashes);
      AnalysedDecisions(t, k, hashes);
    }
  }

  /** Claims and checks stay under their decisions. */
  ghost predicate ObjectsClaimed(w: World, t: World) {
    && (forall k | k in w.db.claims :: k in t.db.claims && t.db.claims[k].decision == w.db.claims[k].decision)
    && Forward(w.db.verifications, t.db.verifications)
  }

  // ---- Executing a check adds at most its own relation

  ghost predicate AddsCheckRelation(a: Db, b: Db, id: string, claim: string) {
    && b.evidence == a.evidence && b.assumptions == a.assumptions
    && forall k | k in b.relations ::
         || (k in a.relations && b.relations[k] == a.relations[k])
         || (k == VerifiedRelationId(id) && b.relations[k].from == claim && b.relations[k].to == id
             && id in b.verifications && b.verifications[id].status.Completed?)
  }

  /** It writes no other relation. */
  ghost predicate LeavesOtherRelations(a: Db, b: Db, id: string) {
    forall k | k in a.relations && k != VerifiedRelationId(id) :: k in b.relations && b.relations[k] == a.relations[k]
  }

  lemma UpdateAddsItsRelation(db: Db, v: Verification)
    requires Keyed(db.claims, ClaimId) && v.claim in db.claims
    requires v.outcome in ["passed", "failed"] ==> v.status.Completed?
    ensures AddsCheckRelation(db, UpdateVerification(db, v), v.id, v.claim)
    ensures LeavesOtherRelations(db, UpdateVerification(db, v), v.id)
    ensures v.id in UpdateVerification(db, v).verifications
  {
    UpdateKeepsCertificates(db, v);
    if v.outcome == "passed" || v.outcome == "failed" {
      CompletedUpdate(db, v);
      assert ClaimId(db.claims[v.claim]) == v.claim;
      assert Checked(db.claims[v.claim], v).id == v.claim;
    }
  }

  lemma FinishAddsItsRelation(db: Db, v: Verification, environment: string, outcome: string, artifact: string, hashes: Hashes, now: int)
    requires Keyed(db.claims, ClaimId) && v.claim in db.claims && v.id in db.verifications
    ensures AddsCheckRelation(db, Finish(db, v, environment, outcome, artifact, hashes, now).0, v.id, v.claim)
    ensures LeavesOtherRelations(db, Finish(db, v, environment, outcome, artifact, hashes, now).0, v.id)
  {
    FinishResult(db, v, environment, outcome, artifact, hashes, now);
    UpdateAddsItsRelation(db, Complete(v, environment, outcome, artifact, hashes, now));
  }

  /** The check's claim is stored, and starting the check changes nothing else. */
  lemma CheckHasItsClaim(w: World, id: string, hashes: Hashes)
    requires Inv(w, hashes) && id in w.db.verifications
    ensures var v := w.db.verifications[id];
            v.id == id && v.claim in w.db.claims && Settled(w.db.runs, w.db.decisions, v.decision)
            && w.db.claims[v.claim].decision == v.decision
  {
    hide CertificatesOk, Counted, ClaimsReplay, UnknownsReplay, OneCheckEach;
    assert VerificationId(w.db.verifications[id]) == id && CheckOk(w.db.verifications[id], w.db.claims, hashes);
  }

  lemma StartAddsNothing(w: World, v: Verification, hashes: Hashes)
    requires Inv(w, hashes) && Moves(w.db.verifications, v)
    ensures UpdateVerification(w.db, v) == w.db.(verifications := w.db.verifications[v.id := v])
  {
    StartedUpdate(w.db, v, hashes);
  }

  lemma RunAddsItsRelation(w: World, v: Verification, environment: string, executed: Option<(string, string)>, hashes: Hashes, now: int)
    requires Inv(w, hashes) && Moves(w.db.verifications, v) && v.claim in w.db.claims
    ensures var started := UpdateVerification(w.db, v);
            && AddsCheckRelation(w.db, started, v.id, v.claim) && LeavesOtherRelations(w.db, started, v.id)
            && (executed.Some? ==>
                  var t := Finish(started, v, environment, executed.value.0, executed.value.1, hashes, now).0;
                  AddsCheckRelation(w.db, t, v.id, v.claim) && LeavesOtherRelations(w.db, t, v.id))
  {
    hide Replayed, Counted, Owned;
    StartAddsNothing(w, v, hashes);
    if executed.Some? {
      FinishAddsItsRelation(UpdateVerification(w.db, v), v, environment, executed.value.0, executed.value.1, hashes, now);
    }
  }

  lemma NothingAdded(db: Db, id: string, claim: string)
    ensures AddsCheckRelation(db, db, id, claim) && LeavesOtherRelations(db, db, id)
  {
  }

  lemma ExecuteAddsItsRelation(w: World, id: string, input: CheckInput, executed: Option<(string, string)>, hashes: Hashes, now: int)
    requires Inv(w, hashes) && id in w.db.verifications
    ensures AddsCheckRelation(w.db, Service.ExecuteVerification(w.db, id, input, executed, hashes, now).0, id,
                              w.db.verifications[id].claim)
    ensures LeavesOtherRelations(w.db, Service.ExecuteVerification(w.db, id, input, executed, hashes, now).0, id)
  {
    hide Inv, Tables, Replayed, KeyedById, Keyed, Counted, Owned, RunsLinked, CertificatesOk, Settled, AddsCheckRelation,
         LeavesOtherRelations, Service.ExecuteVerification, Finish, UpdateVerification, CheckRefusal, Lifecycle.Numbered;
    var v := w.db.verifications[id];
    InvParts(w, hashes);
    ExecuteResult(w.db, id, input, executed, hashes, now);
    CheckHasItsClaim(w, id, hashes);
    NothingAdded(w.db, id, v.claim);
    if CheckRefusal(v, input).None? {
      AdmittedRequest(v, input);
      var environment := ChosenEnvironment(v, input);
      if input.outcome == "" && input.artifact == "" {
        RunAddsItsRelation(w, Approve(v, input).(status := Running), environment, executed, hashes, now);
      } else {
        FinishAddsItsRelation(w.db, Approve(v, input), environment, input.outcome, input.artifact, hashes, now);
      }
    }
  }

  /** A check's relation connects it to its claim, which is of the same decision. */
  lemma CheckRelationKeepsGraph(w: World, b: Db, id: string, hashes: Hashes)
    requires Inv(w, hashes) && GraphOk(w.db, w.drawn) && id in w.db.verifications
    requires RunsStay(w.db, b) && ObjectsStay(w.db, b)
    requires AddsCheckRelation(w.db, b, id, w.db.verifications[id].claim)
    ensures GraphOk(b, w.drawn)
  {
    hide Forward, Inv, Belongs, GraphOwned;
    var v := w.db.verifications[id];
    OwnersStay(w.db, b);
    CheckHasItsClaim(w, id, hashes);
    var d := v.decision;
    BelongingStays(w.db, b, v.claim, d);
    BelongingStays(w.db, b, id, d);
    forall k | k in b.relations ensures AtHome(b, b.relations[k]) && RelationNamed(b.verifications, k, w.drawn) {
      if k in w.db.relations && b.relations[k] == w.db.relations[k] {
        HomesStay(w.db, b, w.db.relations[k]);
        NameStays(w.db.verifications, b.verifications, k, w.drawn, w.drawn);
      } else {
        CheckRelationAtHome(b, b.relations[k], id, v.claim, d);
      }
    }
  }

  lemma CheckRelationAtHome(b: Db, r: Relation, id: string, claim: string, d: string)
    requires d in b.decisions && Belongs(b, claim, d) && Belongs(b, id, d) && r.from == claim && r.to == id
    ensures AtHome(b, r)
  {
  }

  lemma ExecuteKeepsObjects(w: World, id: string, input: CheckInput, executed: Option<(string, string)>, hashes: Hashes, now: int)
    requires Inv(w, hashes)
    requires Service.ExecuteVerification(w.db, id, input, executed, hashes, now).0.evidence == w.db.evidence
    ensures ObjectsStay(w.db, Service.ExecuteVerification(w.db, id, input, executed, hashes, now).0)
  {
    hide Inv, ObjectsClaimed, ObjectsStay, ExecuteVerification;
    CallKeepsObjects(w, Execute(id, input, executed), hashes, now);
    ClaimedObjectsStay(w, After(w, Execute(id, input, executed), hashes, now));
  }

  lemma ClaimedObjectsStay(w: World, t: World)
    requires ObjectsClaimed(w, t)
    requires forall k | k in w.db.evidence :: k in t.db.evidence && t.db.evidence[k].run == w.db.evidence[k].run
    ensures ObjectsStay(w.db, t.db)
  {
  }

  lemma ExecuteKeepsGraph(w: World, id: string, input: CheckInput, executed: Option<(string, string)>, hashes: Hashes, now: int)
    requires Inv(w, hashes) && GraphOk(w.db, w.drawn)
    ensures GraphOk(Service.ExecuteVerification(w.db, id, input, executed, hashes, now).0, w.drawn)
  {
    hide Replayed;
    if id in w.db.verifications {
      ExecuteKeepsRuns(w.db, id, input, executed, hashes, now);
      ExecuteAddsItsRelation(w, id, input, executed, hashes, now);
      ExecuteKeepsObjects(w, id, input, executed, hashes, now);
      CheckRelationKeepsGraph(w, Service.ExecuteVerification(w.db, id, input, executed, hashes, now).0, id, hashes);
    } else {
      ExecuteResult(w.db, id, input, executed, hashes, now);
    }
  }

  // ---- Saving an analysis

  /** An ID the analyzer chose itself: of no form the service gives out, and not stored yet. */
  ghost predicate Own(id: string, stored: map<string, Relation>) {
    Foreign(id) && id !in stored
  }

  /** What the analyzer owes: relation IDs that are blank or its own and differ, evidence of
      this run, and references that stay inside the analysis once relabelled. */
  ghost predicate Sound(p: Analysis, b: Analysis, run: string, stored: map<string, Relation>) {
    && (forall k | 0 <= k < |p.relations| :: p.relations[k].id == "" || Own(p.relations[k].id, stored))
    && (forall i, k | 0 <= i < k < |p.relations| :: p.relations[i].id == p.relations[k].id ==> p.relations[k].id == "")
    && (forall i | 0 <= i < |p.evidence| :: p.evidence[i].run == run)
    && Relabel.Closed(b)
  }

  /** The analysis as the store receives it. */
  ghost predicate Arrives(b: Analysis, n: nat, run: string, d: string, stored: map<string, Relation>) {
    && Relabels(b, n, d) && Relabel.Closed(b)
    && (forall i | 0 <= i < |b.evidence| :: b.evidence[i].id == NewId("evd", n + i) && b.evidence[i].run == run)
    && (forall i | 0 <= i < |b.assumptions| :: b.assumptions[i].id == NewId("asm", n + i) && b.assumptions[i].decision == d)
    && NewRelations(b.relations, n, stored)
  }

  ghost predicate NewRelations(items: seq<Relation>, n: nat, stored: map<string, Relation>) {
    && DistinctKeys(items, RelationId)
    && forall k | 0 <= k < |items| :: items[k].id == NewId("rel", n + k) || Own(items[k].id, stored)
  }

  lemma RelabelledEvidence(p: Analysis, n: nat, now: int, d: string)
    ensures var b := Relabel.Relabelled(p, n, now, d);
            |b.evidence| == |p.evidence|
            && forall i | 0 <= i < |p.evidence| :: b.evidence[i].id == NewId("evd", n + i) && b.evidence[i].run == p.evidence[i].run
  {
  }

  lemma RelabelledAssumptions(p: Analysis, n: nat, now: int, d: string)
    ensures var b := Relabel.Relabelled(p, n, now, d);
            forall i | 0 <= i < |b.assumptions| :: b.assumptions[i].id == NewId("asm", n + i) && b.assumptions[i].decision == d
  {
  }

  lemma RelabelledRelations(p: Analysis, n: nat, now: int, run: string, d: string, stored: map<string, Relation>)
    requires Sound(p, Relabel.Relabelled(p, n, now, d), run, stored)
    ensures NewRelations(Relabel.Relabelled(p, n, now, d).relations, n, stored)
  {
    hide Relabel.Closed, Foreign;
    var items := Relabel.Relabelled(p, n, now, d).relations;
    forall k | 0 <= k < |items|
      ensures items[k].id == NewId("rel", n + k)
              || (k < |p.relations| && items[k].id == p.relations[k].id != "" && Own(items[k].id, stored))
    {
    }
    forall i, k | 0 <= i < k < |items| ensures RelationId(items[i]) != RelationId(items[k]) {
      RelationIdsDiffer(p.relations, items, n, stored, i, k);
    }
  }

  lemma RelationIdsDiffer(proposed: seq<Relation>, items: seq<Relation>, n: nat, stored: map<string, Relation>, i: nat, k: nat)
    requires i < k < |items|
    requires forall i, k | 0 <= i < k < |proposed| :: proposed[i].id == proposed[k].id ==> proposed[k].id == ""
    requires forall j | 0 <= j < |items| ::
               || items[j].id == NewId("rel", n + j)
               || (j < |proposed| && items[j].id == proposed[j].id != "" && Own(items[j].id, stored))
    ensures items[i].id != items[k].id
  {
    if items[i].id == items[k].id {
      assert items[i].id == NewId("rel", n + i) && items[k].id == NewId("rel", n + k);
      NewIdIsInjective("rel", n + i, "rel", n + k);
    }
  }

  lemma SoundArrives(p: Analysis, b: Analysis, n: nat, now: int, run: string, d: string, stored: map<string, Relation>)
    requires b == Relabel.Relabelled(p, n, now, d) && Sound(p, b, run, stored)
    ensures Arrives(b, n, run, d, stored)
  {
    RelabelledRelabels(p, n, now, d);
    RelabelledEvidence(p, n, now, d);
    RelabelledAssumptions(p, n, now, d);
    RelabelledRelations(p, n, now, run, d, stored);
  }

  lemma RelationsDrawn(p: Analysis, n: nat, now: int, d: string)
    ensures |Relabel.Relabelled(p, n, now, d).relations| <= Relabel.Drawn(p)
    ensures |Relabel.Relabelled(p, n, now, d).evidence| <= Relabel.Drawn(p)
    ensures |Relabel.Relabelled(p, n, now, d).assumptions| <= Relabel.Drawn(p)
  {
  }

  /** Putting numbered items adds them and keeps the rest; the keys of the new table. */
  lemma SavedItems<T>(m: map<string, T>, items: seq<T>, key: T -> string, prefix: string, n: nat)
    requires Lifecycle.Numbered(m, prefix, n) && forall i | 0 <= i < |items| :: key(items[i]) == NewId(prefix, n + i)
    ensures Adds(m, PutAll(m, items, key), items, key)
  {
    PutNumbered(m, items, key, prefix, n, n + |items|);
  }

  lemma SavedRelations(m: map<string, Relation>, items: seq<Relation>, n: nat, k: string)
    requires NewRelations(items, n, m)
    ensures var after := PutAll(m, items, RelationId);
            && (k in after ==> || (k in m && after[k] == m[k])
                               || ((IsId("rel", k, n + |items|) || Own(k, m)) && after[k] in items && after[k].id == k))
            && (k in m && !HasKey(items, RelationId, k) ==> k in after && after[k] == m[k])
  {
    PutAllKey(m, items, RelationId, k);
    if HasKey(items, RelationId, k) {
      var i :| 0 <= i < |items| && RelationId(items[i]) == k;
      assert k == NewId("rel", n + i) || Own(k, m);
    }
  }

  lemma NewRelationAtHome(db: Db, b: Analysis, run: string, d: string, r: Relation)
    requires Relabel.Closed(b) && r in b.relations && d in db.decisions && db.decisions[d].run == run
    requires forall e | e in b.evidence :: e.id in db.evidence && db.evidence[e.id] == e && e.run == run
    requires forall c | c in b.claims :: c.id in db.claims && db.claims[c.id] == c && c.decision == d
    ensures Belongs(db, r.from, d) && Belongs(db, r.to, d)
  {
    var k :| 0 <= k < |b.relations| && b.relations[k] == r;
    assert Relabel.IsEvidence(b, r.from) && Relabel.IsClaim(b, r.to);
    var i :| 0 <= i < |b.evidence| && EvidenceId(b.evidence[i]) == r.from;
    var j :| 0 <= j < |b.claims| && ClaimId(b.claims[j]) == r.to;
    assert b.evidence[i] in b.evidence && b.claims[j] in b.claims;
  }

  ghost predicate Fits(b: Analysis, n: nat, more: nat) {
    n + |b.claims| <= more && n + |b.evidence| <= more && n + |b.relations| <= more && n + |b.assumptions| <= more
  }

  /** The tables after an analysis, as far as graphs are read from them. */
  ghost predicate Saved(a: Db, db: Db, b: Analysis, run: string, d: string) {
    && Adds(a.claims, db.claims, b.claims, ClaimId) && Adds(a.evidence, db.evidence, b.evidence, EvidenceId)
    && Adds(a.assumptions, db.assumptions, b.assumptions, AssumptionId) && Adds(a.unknowns, db.unknowns, b.unknowns, UnknownId)
    && db.relations == PutAll(a.relations, b.relations, RelationId) && db.verifications == a.verifications
    && d in db.decisions && db.decisions[d].run == run
    && (forall c | c in b.claims :: c.decision == d) && (forall e | e in b.evidence :: e.run == run)
    && (forall x | x in b.assumptions :: x.decision == d) && (forall u | u in b.unknowns :: u.decision == d)
  }

  lemma AnalysisSaves(a: Db, run: string, b: Analysis, n: nat)
    requires Counted(a, n) && GraphIds(a, n) && KeyedById(a) && RunsLinked(a.runs, a.decisions) && run in a.runs
    requires Arrives(b, n, run, a.runs[run].decision, a.relations)
    ensures Saved(a, SaveAnalysis(a, run, b), b, run, a.runs[run].decision)
  {
    SavedTables(a, run, b, n);
    SavedItems(a.evidence, b.evidence, EvidenceId, "evd", n);
    SavedItems(a.assumptions, b.assumptions, AssumptionId, "asm", n);
    SavingMarksTheRun(a, run, b);
  }

  lemma SavedNames(a: Db, db: Db, b: Analysis, run: string, d: string, n: nat, more: nat)
    requires GraphIds(a, n) && Arrives(b, n, run, d, a.relations) && Fits(b, n, more) && Saved(a, db, b, run, d)
    requires db.evidence == PutAll(a.evidence, b.evidence, EvidenceId)
    requires db.assumptions == PutAll(a.assumptions, b.assumptions, AssumptionId)
    ensures GraphIds(db, more)
  {
    PutNumbered(a.evidence, b.evidence, EvidenceId, "evd", n, more);
    PutNumbered(a.assumptions, b.assumptions, AssumptionId, "asm", n, more);
    forall k | k in db.relations ensures RelationNamed(db.verifications, k, more) {
      SavedRelations(a.relations, b.relations, n, k);
      if k in a.relations {
        NameStays(a.verifications, db.verifications, k, n, more);
      }
    }
  }

  lemma SavedOwners(a: Db, db: Db, b: Analysis, run: string, d: string)
    requires GraphOwned(a) && RunsStay(a, db) && Saved(a, db, b, run, d)
    requires AnalysedRun(db.runs, run)
    ensures GraphOwned(db)
  {
    forall k | k in db.evidence ensures AnalysedRun(db.runs, db.evidence[k].run) {
      if k in a.evidence {
        assert AnalysedRun(a.runs, a.evidence[k].run);
      }
    }
    forall k | k in db.assumptions ensures Settled(db.runs, db.decisions, db.assumptions[k].decision) {
      if k in a.assumptions {
        assert Settled(a.runs, a.decisions, a.assumptions[k].decision);
      }
    }
  }

  lemma SavedHomes(a: Db, db: Db, b: Analysis, run: string, d: string, n: nat)
    requires RunsStay(a, db) && Saved(a, db, b, run, d) && Arrives(b, n, run, d, a.relations)
    requires forall k | k in a.relations :: AtHome(a, a.relations[k])
    ensures forall k | k in db.relations :: AtHome(db, db.relations[k])
    ensures forall r | r in b.relations :: Belongs(db, r.from, d) && Belongs(db, r.to, d)
  {
    hide Belongs, Relabel.Closed, RunsStay;
    StoredUnderTheirIds(db, b, run, d, a);
    forall r | r in b.relations ensures Belongs(db, r.from, d) && Belongs(db, r.to, d) {
      NewRelationAtHome(db, b, run, d, r);
    }
    forall k | k in db.relations ensures AtHome(db, db.relations[k]) {
      SavedRelations(a.relations, b.relations, n, k);
      if k in a.relations && db.relations[k] == a.relations[k] {
        HomesStay(a, db, a.relations[k]);
      } else {
        assert d in db.decisions && Belongs(db, db.relations[k].from, d);
      }
    }
  }

  lemma StoredUnderTheirIds(db: Db, b: Analysis, run: string, d: string, a: Db)
    requires Saved(a, db, b, run, d)
    ensures forall e | e in b.evidence :: e.id in db.evidence && db.evidence[e.id] == e
    ensures forall c | c in b.claims :: c.id in db.claims && db.claims[c.id] == c
  {
    forall e | e in b.evidence ensures e.id in db.evidence && db.evidence[e.id] == e {
      assert EvidenceId(e) == e.id;
    }
    forall c | c in b.claims ensures c.id in db.claims && db.claims[c.id] == c {
      assert ClaimId(c) == c.id;
    }
  }

  lemma SavingKeepsGraph(a: Db, run: string, b: Analysis, n: nat, more: nat)
    requires Counted(a, n) && KeyedById(a) && RunsLinked(a.runs, a.decisions) && GraphOk(a, n) && run in a.runs
    requires Arrives(b, n, run, a.runs[run].decision, a.relations) && Fits(b, n, more)
    ensures GraphOk(SaveAnalysis(a, run, b), more)
  {
    AnalysisSaves(a, run, b, n);
    SavingMarksTheRun(a, run, b);
    SavedTablesAre(a, run, b);
    SavedGraph(a, SaveAnalysis(a, run, b), b, run, a.runs[run].decision, n, more);
  }

  lemma SavedTablesAre(a: Db, run: string, b: Analysis)
    requires run in a.runs
    ensures SaveAnalysis(a, run, b).evidence == PutAll(a.evidence, b.evidence, EvidenceId)
    ensures SaveAnalysis(a, run, b).assumptions == PutAll(a.assumptions, b.assumptions, AssumptionId)
  {
  }

  lemma SavedGraph(a: Db, db: Db, b: Analysis, run: string, d: string, n: nat, more: nat)
    requires GraphOk(a, n) && RunsStay(a, db) && Saved(a, db, b, run, d) && AnalysedRun(db.runs, run)
    requires Arrives(b, n, run, d, a.relations) && Fits(b, n, more)
    requires db.evidence == PutAll(a.evidence, b.evidence, EvidenceId)
    requires db.assumptions == PutAll(a.assumptions, b.assumptions, AssumptionId)
    ensures GraphOk(db, more)
  {
    SavedNames(a, db, b, run, d, n, more);
    SavedOwners(a, db, b, run, d);
    SavedHomes(a, db, b, run, d, n);
  }

  // ---- Every call, every history of sound analyses

  ghost predicate SoundCall(w: World, call: Call, now: int) {
    call.Analyse? && Analyses(w.db, call.run, call.proposal) ==>
      Sound(call.proposal.value, Relabel.Relabelled(call.proposal.value, w.drawn, now, w.db.runs[call.run].decision), call.run, w.db.relations)
  }

  lemma AnalyseKeepsGraph(w: World, run: string, p: Analysis, hashes: Hashes, now: int)
    requires Inv(w, hashes) && GraphOk(w.db, w.drawn) && run in w.db.runs && w.db.runs[run].status.Ingesting?
    requires Sound(p, Relabel.Relabelled(p, w.drawn, now, w.db.runs[run].decision), run, w.db.relations)
    ensures var t := AfterAnalysis(w, run, p, now); GraphOk(t.db, t.drawn)
  {
    hide *;
    InvParts(w, hashes);
    AnalysisIsSaved(w, run, p, now);
    SoundAnalysisKeepsGraph(w.db, run, p, w.drawn, now);
  }

  lemma SoundAnalysisKeepsGraph(a: Db, run: string, p: Analysis, n: nat, now: int)
    requires Counted(a, n) && KeyedById(a) && RunsLinked(a.runs, a.decisions) && GraphOk(a, n) && run in a.runs
    requires Sound(p, Relabel.Relabelled(p, n, now, a.runs[run].decision), run, a.relations)
    ensures GraphOk(SaveAnalysis(a, run, Relabel.Relabelled(p, n, now, a.runs[run].decision)), n + Relabel.Drawn(p))
  {
    hide *;
    SoundFits(p, n, now, run, a.runs[run].decision, a.relations);
    SavingKeepsGraph(a, run, Relabel.Relabelled(p, n, now, a.runs[run].decision), n, n + Relabel.Drawn(p));
  }

  lemma SoundFits(p: Analysis, n: nat, now: int, run: string, d: string, stored: map<string, Relation>)
    requires Sound(p, Relabel.Relabelled(p, n, now, d), run, stored)
    ensures Arrives(Relabel.Relabelled(p, n, now, d), n, run, d, stored)
    ensures Fits(Relabel.Relabelled(p, n, now, d), n, n + Relabel.Drawn(p))
  {
    SoundArrives(p, Relabel.Relabelled(p, n, now, d), n, now, run, d, stored);
    RelabelledFits(p, Relabel.Relabelled(p, n, now, d), n, now, d);
  }

  lemma RelabelledFits(p: Analysis, b: Analysis, n: nat, now: int, d: string)
    requires b == Relabel.Relabelled(p, n, now, d)
    ensures Fits(b, n, n + Relabel.Drawn(p))
  {
    RelabelledRelabels(p, n, now, d);
    RelationsDrawn(p, n, now, d);
  }

  lemma OtherCallsKeepGraph(w: World, call: Call, hashes: Hashes, now: int)
    requires Inv(w, hashes) && GraphOk(w.db, w.drawn) && !call.Analyse? && !call.Execute?
    ensures var t := After(w, call, hashes, now); GraphOk(t.db, t.drawn)
  {
    var t := After(w, call, hashes, now);
    OtherCallsLeaveGraph(w, call, hashes, now);
    CallKeepsRuns(w, call, hashes, now);
    CallKeepsObjects(w, call, hashes, now);
    ClaimedObjectsStay(w, t);
    QuietCallKeepsGraph(w.db, t.db, w.drawn, t.drawn);
  }

  ghost predicate SameGraphTables(a: Db, b: Db) {
    b.evidence == a.evidence && b.assumptions == a.assumptions && b.relations == a.relations
  }

  lemma OtherCallsLeaveGraph(w: World, call: Call, hashes: Hashes, now: int)
    requires Inv(w, hashes) && !call.Analyse? && !call.Execute?
    ensures var t := After(w, call, hashes, now); SameGraphTables(w.db, t.db) && w.drawn <= t.drawn
  {
    hide Inv, Tables, Replayed, KeyedById, Counted, RunsLinked, Owned, CertificatesOk, After, Keyed;
    InvParts(w, hashes);
    AfterEachCall(w, call, hashes, now);
    match call
    case Create(input) => CreatingKeepsTables(w.db, input, w.drawn, hashes, now);
    case Add(run, event) => AddKeepsTables(w.db, run, event, w.drawn, hashes, now);
    case PlanChecks(d, spec) => PlanResult(w.db, d, spec, w.drawn, now);
    case Judge(d, approved) => JudgingLeavesGraph(w.db, d, approved, hashes, now);
  }

  lemma JudgingLeavesGraph(db: Db, d: string, approved: bool, hashes: Hashes, now: int)
    requires KeyedById(db) && RunsLinked(db.runs, db.decisions)
    ensures SameGraphTables(db, Service.Evaluate(db, d, approved, hashes, now).0)
  {
    EvaluateResult(db, d, approved, hashes, now);
    var g := Project(db, RunOf(db, DecisionOf(db, d).run));
    CertifyingLeavesGraph(db, Judged(g, approved, now), Issue(g, approved, hashes, now));
  }

  lemma CertifyingLeavesGraph(db: Db, judged: Decision, c: Certificate)
    ensures SameGraphTables(db, SaveCertificate(SaveDecision(db, judged), c)) && SameGraphTables(db, db)
  {
  }

  lemma CallKeepsGraph(w: World, call: Call, hashes: Hashes, now: int)
    requires Inv(w, hashes) && GraphOk(w.db, w.drawn) && SoundCall(w, call, now)
    ensures var t := After(w, call, hashes, now); GraphOk(t.db, t.drawn)
  {
    hide *;
    InvParts(w, hashes);
    AfterEachCall(w, call, hashes, now);
    match call
    case Analyse(run, proposal) => AnalyseCallKeepsGraph(w, run, proposal, hashes, now);
    case Execute(check, request, executed) => ExecuteKeepsGraph(w, check, request, executed, hashes, now);
    case _ => OtherCallsKeepGraph(w, call, hashes, now);
  }

  lemma AnalyseCallKeepsGraph(w: World, run: string, proposal: Option<Analysis>, hashes: Hashes, now: int)
    requires Inv(w, hashes) && GraphOk(w.db, w.drawn) && SoundCall(w, Analyse(run, proposal), now)
    ensures var t := After(w, Analyse(run, proposal), hashes, now); GraphOk(t.db, t.drawn)
  {
    hide Inv, GraphOk, Sound, AfterAnalysis, Relabel.Relabelled;
    if Analyses(w.db, run, proposal) {
      AnalyseKeepsGraph(w, run, proposal.value, hashes, now);
    } else {
      InvParts(w, hashes);
      AnalyzeResult(w.db, run, proposal, w.drawn, now);
    }
  }

  /** Every reachable state keeps each relation inside one decision. */
  lemma {:induction false} ReachableGraphs(worlds: seq<World>, calls: seq<Call>, times: seq<int>, hashes: Hashes, i: nat)
    requires History(worlds, calls, times, hashes) && i < |worlds|
    requires forall k | 0 <= k < |calls| :: SoundCall(worlds[k], calls[k], times[k])
    ensures GraphOk(worlds[i].db, worlds[i].drawn)
  {
    if i > 0 {
      ReachableGraphs(worlds, calls, times, hashes, i - 1);
      ReachableKeepsInv(worlds, calls, times, hashes, i - 1);
      CallKeepsGraph(worlds[i - 1], calls[i - 1], hashes, times[i - 1]);
    }
  }

  // ---- No relation is ever lost or replaced

  ghost predicate RelationsStay(a: Db, b: Db) {
    forall k | k in a.relations :: k in b.relations && b.relations[k] == a.relations[k]
  }

  lemma CheckRelationIdsDiffer(v: string, id: string)
    requires VerifiedRelationId(v) == VerifiedRelationId(id)
    ensures v == id
  {
    assert v == VerifiedRelationId(v)[13..] && id == VerifiedRelationId(id)[13..];
  }

  /** An open check has no relation yet: analysed relations are named otherwise, and only
      completed checks have theirs. */
  lemma OpenCheckHasNoRelation(db: Db, n: nat, id: string)
    requires GraphIds(db, n) && (id in db.verifications ==> !db.verifications[id].status.Completed?)
    ensures VerifiedRelationId(id) !in db.relations
  {
    var k := VerifiedRelationId(id);
    if k in db.relations {
      assert RelationNamed(db.verifications, k, n);
      if m: nat :| m < n && k == NewId("rel", m) {
        VerifiedRelationIdIsNew(id, m);
      } else {
        var v :| v in db.verifications && db.verifications[v].status.Completed? && k == VerifiedRelationId(v);
        CheckRelationIdsDiffer(v, id);
      }
    }
  }

  lemma ExecuteKeepsRelations(w: World, id: string, input: CheckInput, executed: Option<(string, string)>, hashes: Hashes, now: int)
    requires Inv(w, hashes) && GraphOk(w.db, w.drawn)
    ensures RelationsStay(w.db, Service.ExecuteVerification(w.db, id, input, executed, hashes, now).0)
  {
    hide Inv, GraphOwned, AtHome, Service.ExecuteVerification;
    ExecuteResult(w.db, id, input, executed, hashes, now);
    if id in w.db.verifications && CheckRefusal(w.db.verifications[id], input).None? {
      AdmittedRequest(w.db.verifications[id], input);
      ExecuteAddsItsRelation(w, id, input, executed, hashes, now);
      OpenCheckHasNoRelation(w.db, w.drawn, id);
    }
  }

  lemma DrawnRelationIsNew(db: Db, n: nat, m: nat)
    requires GraphIds(db, n) && n <= m
    ensures NewId("rel", m) !in db.relations
  {
    var k := NewId("rel", m);
    if k in db.relations {
      assert RelationNamed(db.verifications, k, n);
      if i: nat :| i < n && k == NewId("rel", i) {
        NewIdIsInjective("rel", i, "rel", m);
      } else {
        var v :| v in db.verifications && db.verifications[v].status.Completed? && k == VerifiedRelationId(v);
        VerifiedRelationIdIsNew(v, m);
      }
    }
  }

  lemma SavingKeepsRelations(a: Db, db: Db, b: Analysis, run: string, d: string, n: nat)
    requires GraphIds(a, n) && Arrives(b, n, run, d, a.relations) && Saved(a, db, b, run, d)
    ensures RelationsStay(a, db)
  {
    hide Relabel.Closed;
    forall k | k in a.relations ensures k in db.relations && db.relations[k] == a.relations[k] {
      SavedRelations(a.relations, b.relations, n, k);
      if HasKey(b.relations, RelationId, k) {
        var i :| 0 <= i < |b.relations| && RelationId(b.relations[i]) == k;
        assert b.relations[i].id == NewId("rel", n + i);
        DrawnRelationIsNew(a, n, n + i);
      }
    }
  }

  lemma AnalyseKeepsRelations(w: World, run: string, p: Analysis, hashes: Hashes, now: int)
    requires Inv(w, hashes) && GraphOk(w.db, w.drawn) && run in w.db.runs && w.db.runs[run].status.Ingesting?
    requires Sound(p, Relabel.Relabelled(p, w.drawn, now, w.db.runs[run].decision), run, w.db.relations)
    ensures RelationsStay(w.db, AfterAnalysis(w, run, p, now).db)
  {
    hide Saved, Arrives, RelationsStay, AtHome, GraphOwned, SaveAnalysis, Relabel.Relabelled, Sound;
    var d := w.db.runs[run].decision;
    var b := Relabel.Relabelled(p, w.drawn, now, d);
    AnalysisIsSaved(w, run, p, now);
    SoundArrives(p, b, w.drawn, now, run, d, w.db.relations);
    AnalysisSaves(w.db, run, b, w.drawn);
    SavingKeepsRelations(w.db, SaveAnalysis(w.db, run, b), b, run, d, w.drawn);
  }

  lemma AnalyseCallKeepsRelations(w: World, run: string, proposal: Option<Analysis>, hashes: Hashes, now: int)
    requires Inv(w, hashes) && GraphOk(w.db, w.drawn) && SoundCall(w, Analyse(run, proposal), now)
    ensures RelationsStay(w.db, After(w, Analyse(run, proposal), hashes, now).db)
  {
    hide Inv, GraphOk, Sound, AfterAnalysis, Relabel.Relabelled;
    if Analyses(w.db, run, proposal) {
      AnalyseKeepsRelations(w, run, proposal.value, hashes, now);
    } else {
      InvParts(w, hashes);
      AnalyzeResult(w.db, run, proposal, w.drawn, now);
    }
  }

  lemma SameTablesKeepRelations(a: Db, b: Db)
    requires SameGraphTables(a, b)
    ensures RelationsStay(a, b)
  {
  }

  lemma CallKeepsRelations(w: World, call: Call, hashes: Hashes, now: int)
    requires Inv(w, hashes) && GraphOk(w.db, w.drawn) && SoundCall(w, call, now)
    ensures RelationsStay(w.db, After(w, call, hashes, now).db)
  {
    hide *;
    AfterEachCall(w, call, hashes, now);
    match call
    case Analyse(run, proposal) => AnalyseCallKeepsRelations(w, run, proposal, hashes, now);
    case Execute(check, request, executed) => ExecuteKeepsRelations(w, check, request, executed, hashes, now);
    case _ =>
      OtherCallsLeaveGraph(w, call, hashes, now);
      SameTablesKeepRelations(w.db, After(w, call, hashes, now).db);
  }

  /** Between any two states of a history, every relation stands as it was stored. */
  lemma {:induction false} RelationsAreForever(worlds: seq<World>, calls: seq<Call>, times: seq<int>, hashes: Hashes, i: nat, j: nat)
    requires History(worlds, calls, times, hashes) && i <= j < |worlds|
    requires forall k | 0 <= k < |calls| :: SoundCall(worlds[k], calls[k], times[k])
    ensures RelationsStay(worlds[i].db, worlds[j].db)
    decreases j - i
  {
    hide After, Inv, GraphOk, SoundCall;
    if i < j {
      RelationsAreForever(worlds, calls, times, hashes, i, j - 1);
      ReachableKeepsInv(worlds, calls, times, hashes, j - 1);
      ReachableGraphs(worlds, calls, times, hashes, j - 1);
      CallKeepsRelations(worlds[j - 1], calls[j - 1], hashes, times[j - 1]);
    }
  }

  // ---- What was saved comes back

  lemma SameMembersPermute<T>(a: seq<T>, b: seq<T>, key: T -> string)
    requires DistinctKeys(a, key) && DistinctKeys(b, key) && forall x :: x in a <==> x in b
    ensures multiset(a) == multiset(b)
  {
    forall x ensures multiset(a)[x] == multiset(b)[x] {
      DistinctKeysMeanOnce(a, key, x);
      DistinctKeysMeanOnce(b, key, x);
      assert x in multiset(a) <==> x in a;
      assert x in multiset(b) <==> x in b;
    }
  }

  lemma ListingDistinct<T>(m: map<string, T>, pick: T -> bool, key: T -> string)
    requires Keyed(m, key)
    ensures DistinctKeys(Listing(m, pick), key)
  {
    ListingHolds(m, pick, key);
    var listed := Listing(m, pick);
    forall i, j | 0 <= i < j < |listed| ensures key(listed[i]) != key(listed[j]) {
      PrecedesIsLinear(key(listed[i]), key(listed[j]));
    }
  }

  /** A table read back by its owner, when the owner had nothing before. */
  lemma ComesBack<T>(before: map<string, T>, after: map<string, T>, items: seq<T>, key: T -> string, pick: T -> bool)
    requires Keyed(after, key) && Adds(before, after, items, key) && DistinctKeys(items, key)
    requires (forall k | k in before :: !pick(before[k])) && (forall x | x in items :: pick(x))
    ensures multiset(Listing(after, pick)) == multiset(items)
  {
    ListingHolds(after, pick, key);
    ListingDistinct(after, pick, key);
    SameMembersPermute(Listing(after, pick), items, key);
  }

  /** After an analysis the decision's graph lists the new relations and only those. */
  lemma RelationComesBack(a: Db, db: Db, b: Analysis, d: string, n: nat, more: nat, hashes: Hashes, r: Relation)
    requires Tables(db, more, hashes) && GraphOk(db, more) && RunsStay(a, db) && ObjectsStay(a, db) && d in db.decisions
    requires db.relations == PutAll(a.relations, b.relations, RelationId)
    requires NewRelations(b.relations, n, a.relations)
    requires forall k | k in a.relations :: AtHome(a, a.relations[k])
    requires forall x | x in b.relations :: Belongs(db, x.from, d) && Belongs(db, x.to, d)
    requires forall id :: !Belongs(a, id, d)
    ensures r in RelationsOf(db, db.decisions[d].run, d) <==> r in b.relations
  {
    hide Tables, Own, Belongs, AtHome, RunsStay, ObjectsStay, GraphOk, RelationsOf;
    GraphListsItsOwnRelations(db, more, hashes, d, r);
    if r in b.relations {
      var k :| 0 <= k < |b.relations| && b.relations[k] == r;
      DistinctKeyIsTheItem(a.relations, b.relations, RelationId, k);
    } else if r in RelationsOf(db, db.decisions[d].run, d) {
      SavedRelations(a.relations, b.relations, n, r.id);
      OldRelationIsElsewhere(a, db, d, more, r, hashes);
    }
  }

  lemma RelationsComeBack(a: Db, db: Db, b: Analysis, run: string, d: string, n: nat, more: nat, hashes: Hashes)
    requires Tables(db, more, hashes) && GraphOk(db, more) && RunsStay(a, db) && Saved(a, db, b, run, d) && Arrives(b, n, run, d, a.relations)
    requires forall k | k in a.relations :: AtHome(a, a.relations[k])
    requires forall id :: !Belongs(a, id, d)
    ensures multiset(RelationsOf(db, run, d)) == multiset(b.relations)
  {
    hide Belongs, AtHome, Own, Relabel.Closed, RunsStay, ObjectsStay, RelationsOf, GraphIds, GraphOwned;
    SavedHomes(a, db, b, run, d, n);
    SavedObjectsStay(a, db, b, run, d);
    forall r ensures r in RelationsOf(db, run, d) <==> r in b.relations {
      RelationComesBack(a, db, b, d, n, more, hashes, r);
    }
    RelationListPermutes(db, b.relations, run, d);
  }

  lemma SavedObjectsStay(a: Db, db: Db, b: Analysis, run: string, d: string)
    requires Saved(a, db, b, run, d)
    ensures ObjectsStay(a, db)
  {
  }

  lemma RelationListPermutes(db: Db, relations: seq<Relation>, run: string, d: string)
    requires Keyed(db.relations, RelationId) && DistinctKeys(relations, RelationId)
    requires forall r :: r in RelationsOf(db, run, d) <==> r in relations
    ensures multiset(RelationsOf(db, run, d)) == multiset(relations)
  {
    var objects := Objects(db, run, d);
    ListingDistinct(db.relations, (x: Relation) => x.from in objects && x.to in objects, RelationId);
    SameMembersPermute(RelationsOf(db, run, d), relations, RelationId);
  }

  lemma OldRelationIsElsewhere(a: Db, db: Db, d: string, more: nat, r: Relation, hashes: Hashes)
    requires Tables(db, more, hashes) && GraphOk(db, more) && RunsStay(a, db)
    requires ObjectsStay(a, db) && AtHome(a, r) && forall id :: !Belongs(a, id, d)
    ensures !Belongs(db, r.from, d)
  {
    var e :| e in a.decisions && Belongs(a, r.from, e) && Belongs(a, r.to, e);
    BelongingStays(a, db, r.from, e);
    if Belongs(db, r.from, d) {
      BelongsOnce(db, more, r.from, d, e);
    }
  }

  lemma NothingBelongsYet(w: World, run: string, hashes: Hashes, id: string)
    requires Inv(w, hashes) && GraphOk(w.db, w.drawn) && run in w.db.runs && w.db.runs[run].status.Ingesting?
    ensures !Belongs(w.db, id, w.db.runs[run].decision)
  {
    UnanalysedOwnsNothing(w, run, hashes);
    NoEvidenceYet(w.db, w.drawn, run, id);
  }

  lemma NoEvidenceYet(db: Db, n: nat, run: string, id: string)
    requires RunsLinked(db.runs, db.decisions) && GraphOk(db, n) && run in db.runs && db.runs[run].status.Ingesting?
    ensures db.decisions[db.runs[run].decision].run == run
    ensures id in db.evidence ==> db.evidence[id].run != run
  {
    if id in db.evidence {
      assert AnalysedRun(db.runs, db.evidence[id].run);
    }
  }

  lemma ListsComeBack(a: Db, db: Db, b: Analysis, run: string, d: string)
    requires KeyedById(db) && Saved(a, db, b, run, d)
    requires DistinctKeys(b.claims, ClaimId) && DistinctKeys(b.evidence, EvidenceId)
    requires DistinctKeys(b.assumptions, AssumptionId) && DistinctKeys(b.unknowns, UnknownId)
    requires (forall k | k in a.claims :: a.claims[k].decision != d) && (forall k | k in a.evidence :: a.evidence[k].run != run)
    requires (forall k | k in a.assumptions :: a.assumptions[k].decision != d)
    requires (forall k | k in a.unknowns :: a.unknowns[k].decision != d)
    ensures multiset(ClaimsOf(db, d)) == multiset(b.claims) && multiset(Store.EvidenceOf(db, run)) == multiset(b.evidence)
    ensures multiset(AssumptionsOf(db, d)) == multiset(b.assumptions) && multiset(UnknownsOf(db, d)) == multiset(b.unknowns)
  {
    ComesBack(a.claims, db.claims, b.claims, ClaimId, (c: Claim) => c.decision == d);
    ComesBack(a.evidence, db.evidence, b.evidence, EvidenceId, (e: Evidence) => e.run == run);
    ComesBack(a.assumptions, db.assumptions, b.assumptions, AssumptionId, (x: Assumption) => x.decision == d);
    ComesBack(a.unknowns, db.unknowns, b.unknowns, UnknownId, (u: Unknown) => u.decision == d);
  }

  /** The graph read right after an analysis is a permutation of what was saved: no
      relation is dropped, nothing of another decision leaks in. */
  lemma AnalysisComesBack(w: World, run: string, p: Analysis, hashes: Hashes, now: int)
    requires Inv(w, hashes) && GraphOk(w.db, w.drawn) && run in w.db.runs && w.db.runs[run].status.Ingesting?
    requires Sound(p, Relabel.Relabelled(p, w.drawn, now, w.db.runs[run].decision), run, w.db.relations)
    ensures var d := w.db.runs[run].decision;
            var b := Relabel.Relabelled(p, w.drawn, now, d);
            var db := SaveAnalysis(w.db, run, b);
            && multiset(ClaimsOf(db, d)) == multiset(b.claims) && multiset(Store.EvidenceOf(db, run)) == multiset(b.evidence)
            && multiset(RelationsOf(db, run, d)) == multiset(b.relations)
            && multiset(AssumptionsOf(db, d)) == multiset(b.assumptions) && multiset(UnknownsOf(db, d)) == multiset(b.unknowns)
  {
    var d := w.db.runs[run].decision;
    var b := Relabel.Relabelled(p, w.drawn, now, d);
    var t := AfterAnalysis(w, run, p, now);
    AnalysisKeepsInv(w, run, p, now, hashes);
    AnalyseKeepsGraph(w, run, p, hashes, now);
    AnalysisIsSaved(w, run, p, now);
    SoundArrives(p, b, w.drawn, now, run, d, w.db.relations);
    SavedComesBack(w, run, b, t.drawn, hashes);
    Relabel.NewIdsDistinct(p, w.drawn, now, d);
    SavedListsComeBack(w, run, b, t.drawn, hashes);
  }

  lemma SavedComesBack(w: World, run: string, b: Analysis, more: nat, hashes: Hashes)
    requires Inv(w, hashes) && GraphOk(w.db, w.drawn) && run in w.db.runs && w.db.runs[run].status.Ingesting?
    requires Arrives(b, w.drawn, run, w.db.runs[run].decision, w.db.relations)
    requires Tables(SaveAnalysis(w.db, run, b), more, hashes) && GraphOk(SaveAnalysis(w.db, run, b), more)
    ensures multiset(RelationsOf(SaveAnalysis(w.db, run, b), run, w.db.runs[run].decision)) == multiset(b.relations)
  {
    var d := w.db.runs[run].decision;
    AnalysisSaves(w.db, run, b, w.drawn);
    SavingMarksTheRun(w.db, run, b);
    forall id ensures !Belongs(w.db, id, d) {
      NothingBelongsYet(w, run, hashes, id);
    }
    RelationsComeBack(w.db, SaveAnalysis(w.db, run, b), b, run, d, w.drawn, more, hashes);
  }

  lemma SavedListsComeBack(w: World, run: string, b: Analysis, more: nat, hashes: Hashes)
    requires Inv(w, hashes) && GraphOk(w.db, w.drawn) && run in w.db.runs && w.db.runs[run].status.Ingesting?
    requires Arrives(b, w.drawn, run, w.db.runs[run].decision, w.db.relations)
    requires KeyedById(SaveAnalysis(w.db, run, b))
    requires DistinctKeys(b.claims, ClaimId) && DistinctKeys(b.evidence, EvidenceId)
    requires DistinctKeys(b.assumptions, AssumptionId) && DistinctKeys(b.unknowns, UnknownId)
    ensures var d := w.db.runs[run].decision;
            var db := SaveAnalysis(w.db, run, b);
            && multiset(ClaimsOf(db, d)) == multiset(b.claims) && multiset(Store.EvidenceOf(db, run)) == multiset(b.evidence)
            && multiset(AssumptionsOf(db, d)) == multiset(b.assumptions) && multiset(UnknownsOf(db, d)) == multiset(b.unknowns)
  {
    hide SaveAnalysis, AtHome, Counted;
    var d := w.db.runs[run].decision;
    AnalysisSaves(w.db, run, b, w.drawn);
    UnanalysedOwnsNothing(w, run, hashes);
    forall k | k in w.db.evidence ensures w.db.evidence[k].run != run {
      assert AnalysedRun(w.db.runs, w.db.evidence[k].run);
    }
    forall k | k in w.db.assumptions ensures w.db.assumptions[k].decision != d {
      assert Settled(w.db.runs, w.db.decisions, w.db.assumptions[k].decision);
    }
    ListsComeBack(w.db, SaveAnalysis(w.db, run, b), b, run, d);
  }
}
