/** What creating a run, adding an event and storing an analysis leave behind, field by field. */
module CallEffects {
  import opened Text
  import opened Domain
  import opened Store
  import opened Service
  import opened Lifecycle
  import opened RunHistory
  import IssuedCertificates
  import Relabel

  // ---- Creating a run

  /** A request without a recommendation is refused; any other makes a run and its decision,
      linked to each other, and both carry the recommendation. */
  lemma CreatedRun(db: Db, input: RunInput, n: nat, now: int)
    ensures var (t, result) := Service.CreateRun(db, input, n, now);
            if TrimSpace(input.recommendation) == "" then t == db && result == Failed(Invalid)
            else
              && result.Ok?
              && var run, d := NewId("run", n), NewId("dec", n);
                 && t == db.(runs := db.runs[run := result.value], decisions := t.decisions)
                 && d in t.decisions && t.decisions == db.decisions[d := t.decisions[d]]
                 && RunMade(input, run, d, now, result.value) && DecisionMade(input, run, d, now, t.decisions[d])
  {
  }

  ghost predicate RunMade(input: RunInput, run: string, d: string, now: int, r: Run) {
    && r.id == run && r.decision == d && r.recommendation == input.recommendation && r.trace == input.trace
    && r.title == (if input.title != "" then input.title else "Deployment readiness review")
    && r.account == input.account && r.project == input.project && r.aiSystem == input.aiSystem
    && r.status.Ingesting? && r.events == [] && r.createdAt == now
  }

  ghost predicate DecisionMade(input: RunInput, run: string, d: string, now: int, r: Decision) {
    && r.id == d && r.run == run && r.recommendation == input.recommendation
    && r.actionType == (if input.actionType != "" then input.actionType else "software_deployment")
    && r.policyVersion == "deployment-readiness/v1" && r.createdAt == now
    && r.verdict == None && !r.actionAllowed && !r.humanApproved && r.conditions == [] && r.claims == [] && r.evaluatedAt == None
  }

  // ---- Adding an event

  /** The first stored event under this external ID. */
  ghost predicate FirstUnder(events: seq<Event>, id: string, i: nat) {
    id != "" && i < |events| && events[i].externalId == id && forall k | 0 <= k < i :: events[k].externalId != id
  }

  lemma {:induction false} FindsTheFirst(events: seq<Event>, id: string)
    ensures forall i: nat :: FindExternal(events, id) == Some(i) <==> FirstUnder(events, id, i)
  {
    if events != [] && id != "" && events[0].externalId != id {
      FindsTheFirst(events[1..], id);
      forall i: nat ensures FirstUnder(events, id, i) <==> i > 0 && FirstUnder(events[1..], id, i - 1) {
        if i > 0 && FirstUnder(events[1..], id, i - 1) {
          forall k | 0 <= k < i ensures events[k].externalId != id {
            assert k > 0 ==> events[1..][k - 1] == events[k];
          }
        }
      }
    }
  }

  /** The event an input becomes: without a source it is the agent's, without a time it is
      now's, without a number it is the next of its run. */
  ghost predicate EventMade(input: EventInput, n: nat, now: int, count: nat, e: Event) {
    && e.id == NewId("evt", n) && e.externalId == input.externalId && e.kind == input.kind && e.payload == input.payload
    && e.correlation == input.correlation
    && e.source == (if input.source != "" then input.source else "agent")
    && e.occurredAt == (if input.occurredAt != 0 then input.occurredAt else now)
    && e.sequence == (if input.sequence != 0 then input.sequence else count + 1)
  }

  /** Refused without a kind or a payload, and for an unknown run; answered with the stored
      event when its external ID is known; else appended to its run, and nothing else changes. */
  lemma AddedEvent(db: Db, run: string, input: EventInput, n: nat, now: int)
    ensures var (t, result) := Service.AddEvent(db, run, input, n, now);
            if input.kind == "" || input.payload == "" then t == db && result == Failed(Invalid)
            else if run !in db.runs then t == db && result == Failed(NotFound)
            else
              var events := db.runs[run].events;
              && result.Ok?
              && (forall i: nat | FirstUnder(events, input.externalId, i) :: t == db && result.value == events[i])
              && ((forall i: nat :: !FirstUnder(events, input.externalId, i)) ==>
                    && EventMade(input, n, now, |events|, result.value)
                    && t == db.(runs := db.runs[run := db.runs[run].(events := events + [result.value])]))
  {
    if run in db.runs {
      FindsTheFirst(db.runs[run].events, input.externalId);
    }
  }

  // ---- Storing an analysis

  /** The run is marked, its decision lists the new claims in order, checks and certificates
      are left alone; the graph tables are those of `AnalysisComesBack`. */
  lemma StoredAnalysis(w: World, run: string, p: Analysis, hashes: Hashes, now: int)
    requires Inv(w, hashes) && run in w.db.runs && w.db.runs[run].status.Ingesting?
    ensures var d := w.db.runs[run].decision;
            var (t, result) := Service.Analyze(w.db, run, Some(p), w.drawn, now);
            && result.Ok? && d in w.db.decisions
            && t.runs == w.db.runs[run := w.db.runs[run].(status := Analyzed)]
            && t.decisions == w.db.decisions[d := w.db.decisions[d].(claims := t.decisions[d].claims)]
            && |t.decisions[d].claims| == |p.claims|
            && (forall j | 0 <= j < |p.claims| :: t.decisions[d].claims[j] == NewId("clm", w.drawn + j))
            && t.verifications == w.db.verifications && t.certificates == w.db.certificates
  {
    hide *;
    InvParts(w, hashes);
    var d := w.db.runs[run].decision;
    var b := Relabel.Relabelled(p, w.drawn, now, d);
    LinkedDecision(w.db, run);
    AnalysisResult(w.db, run, p, w.drawn, now);
    SavedDecision(w.db, run, b);
    SavingMarksTheRun(w.db, run, b);
    NewClaimIds(p, w.drawn, now, d);
  }

  lemma LinkedDecision(db: Db, run: string)
    requires RunsLinked(db.runs, db.decisions) && run in db.runs
    ensures db.runs[run].decision in db.decisions
  {
  }

  lemma AnalysisResult(db: Db, run: string, p: Analysis, n: nat, now: int)
    requires KeyedById(db) && RunsLinked(db.runs, db.decisions) && run in db.runs && db.runs[run].status.Ingesting?
    ensures Service.Analyze(db, run, Some(p), n, now).1.Ok?
    ensures Service.Analyze(db, run, Some(p), n, now).0 == SaveAnalysis(db, run, Relabel.Relabelled(p, n, now, db.runs[run].decision))
  {
    hide SaveAnalysis, Relabel.Relabelled, Project;
    assert DecisionOf(db, db.runs[run].decision).id == db.runs[run].decision;
  }

  lemma SavedDecision(a: Db, run: string, b: Analysis)
    requires KeyedById(a) && RunsLinked(a.runs, a.decisions) && run in a.runs
    ensures var t, d := SaveAnalysis(a, run, b), a.runs[run].decision;
            && d in a.decisions && t.decisions == a.decisions[d := a.decisions[d].(claims := ClaimIds(b.claims))]
            && t.verifications == a.verifications && t.certificates == a.certificates
  {
  }

  lemma NewClaimIds(p: Analysis, n: nat, now: int, d: string)
    ensures var ids := ClaimIds(Relabel.Relabelled(p, n, now, d).claims);
            |ids| == |p.claims| && forall j | 0 <= j < |ids| :: ids[j] == NewId("clm", n + j)
  {
    hide Relabel.Relabelled;
    Relabel.RelabelledFields(p, n, now, d);
    var claims := Relabel.Relabelled(p, n, now, d).claims;
    forall j | 0 <= j < |claims| ensures claims[j].id == NewId("clm", n + j) {
      assert Relabel.ClaimRewritten(p.claims[j], claims[j], j, n, now, d);
    }
  }

  /** An unknown run is not found, an analysed one is only read, and without a proposal
      nothing happens. */
  lemma OtherAnalysis(db: Db, run: string, proposal: Option<Analysis>, n: nat, now: int)
    requires run !in db.runs || db.runs[run].status.Analyzed? || proposal.None?
    ensures var (t, result) := Service.Analyze(db, run, proposal, n, now);
            && t == db
            && (run !in db.runs ==> result == Failed(NotFound))
            && (run in db.runs && db.runs[run].status.Analyzed? ==> result == Ok(Project(db, db.runs[run])))
            && (run in db.runs && db.runs[run].status.Ingesting? ==> result == Failed(AnalyzerFailed))
  {
  }

  // ---- A run's recommendation reaches its decision and its certificate

  /** What no call changes of a run and of a decision. */
  ghost predicate RequestsStay(a: Db, b: Db) {
    && (forall r | r in a.runs :: r in b.runs && SameRequest(a.runs[r], b.runs[r]))
    && (forall d | d in a.decisions :: d in b.decisions && SameQuestion(a.decisions[d], b.decisions[d]))
  }

  ghost predicate SameRequest(a: Run, b: Run) {
    b == a.(status := b.status, events := b.events)
  }

  ghost predicate SameQuestion(a: Decision, b: Decision) {
    && b.run == a.run && b.recommendation == a.recommendation && b.actionType == a.actionType
    && b.policyVersion == a.policyVersion && b.createdAt == a.createdAt
  }

  /** Each decision asks about its run's recommendation, which is not blank. */
  ghost predicate Asked(db: Db) {
    forall d | d in db.decisions ::
      && db.decisions[d].run in db.runs && db.decisions[d].recommendation == db.runs[db.decisions[d].run].recommendation
      && TrimSpace(db.decisions[d].recommendation) != "" && db.decisions[d].policyVersion == "deployment-readiness/v1"
  }

  lemma SameRequestsStay(a: Db, b: Db)
    requires b.runs == a.runs && b.decisions == a.decisions
    ensures RequestsStay(a, b)
  {
  }

  lemma StayingIsAsked(a: Db, b: Db)
    requires Asked(a) && RequestsStay(a, b) && b.runs.Keys == a.runs.Keys && b.decisions.Keys == a.decisions.Keys
    ensures Asked(b)
  {
  }

  lemma CreateKeepsRequests(w: World, input: RunInput, hashes: Hashes, now: int)
    requires Inv(w, hashes) && Asked(w.db)
    ensures var t := Service.CreateRun(w.db, input, w.drawn, now).0; RequestsStay(w.db, t) && Asked(t)
  {
    hide NewId, TrimSpace, Inv, Asked, RequestsStay, Service.CreateRun;
    InvParts(w, hashes);
    NextIdIsFresh(w.db.runs, "run", w.drawn, w.drawn);
    NextIdIsFresh(w.db.decisions, "dec", w.drawn, w.drawn);
    CreatedRun(w.db, input, w.drawn, now);
    var t := Service.CreateRun(w.db, input, w.drawn, now).0;
    if TrimSpace(input.recommendation) == "" {
      SameAsked(w.db, t);
    } else {
      NewRequestIsAsked(w.db, t, input, NewId("run", w.drawn), NewId("dec", w.drawn), now);
    }
  }

  lemma NewRequestIsAsked(a: Db, b: Db, input: RunInput, run: string, d: string, now: int)
    requires Asked(a) && run !in a.runs && d !in a.decisions && TrimSpace(input.recommendation) != ""
    requires run in b.runs && d in b.decisions
    requires b.runs == a.runs[run := b.runs[run]] && b.decisions == a.decisions[d := b.decisions[d]]
    requires RunMade(input, run, d, now, b.runs[run]) && DecisionMade(input, run, d, now, b.decisions[d])
    ensures RequestsStay(a, b) && Asked(b)
  {
    hide TrimSpace;
  }

  lemma AddKeepsRequests(db: Db, run: string, input: EventInput, n: nat, now: int)
    requires Asked(db)
    ensures var t := Service.AddEvent(db, run, input, n, now).0; RequestsStay(db, t) && Asked(t)
  {
    hide TrimSpace, FirstUnder;
    AddedEvent(db, run, input, n, now);
    var t := Service.AddEvent(db, run, input, n, now).0;
    SameRequestsStay(db, db);
    if t != db {
      assert t.runs.Keys == db.runs.Keys;
      StayingIsAsked(db, t);
    }
  }

  lemma AnalyseKeepsRequests(w: World, run: string, proposal: Option<Analysis>, hashes: Hashes, now: int)
    requires Inv(w, hashes) && Asked(w.db)
    ensures var t := Service.Analyze(w.db, run, proposal, w.drawn, now).0; RequestsStay(w.db, t) && Asked(t)
  {
    hide TrimSpace, Inv, Service.Analyze;
    SameRequestsStay(w.db, w.db);
    if Analyses(w.db, run, proposal) {
      StoredAnalysis(w, run, proposal.value, hashes, now);
      var t := Service.Analyze(w.db, run, proposal, w.drawn, now).0;
      assert t.runs.Keys == w.db.runs.Keys && t.decisions.Keys == w.db.decisions.Keys;
      StayingIsAsked(w.db, t);
    } else {
      OtherAnalysis(w.db, run, proposal, w.drawn, now);
    }
  }

  lemma JudgeKeepsRequests(w: World, d: string, approved: bool, hashes: Hashes, now: int)
    requires Inv(w, hashes) && Asked(w.db)
    ensures var t := Service.Evaluate(w.db, d, approved, hashes, now).0; RequestsStay(w.db, t) && Asked(t)
  {
    hide TrimSpace, Inv, Asked, RequestsStay, Service.Evaluate, IssuedCertificates.Says;
    SameAsked(w.db, w.db);
    if d !in w.db.certificates && d in w.db.decisions {
      IssuedCertificates.FirstEvaluation(w, d, approved, hashes, now);
      var t := Service.Evaluate(w.db, d, approved, hashes, now).0;
      JudgedStays(w.db, t, d);
      StayingIsAsked(w.db, t);
    } else {
      IssuedCertificates.OtherEvaluation(w, d, approved, hashes, now);
    }
  }

  lemma JudgedStays(a: Db, b: Db, d: string)
    requires d in a.decisions && d in b.decisions && b.runs == a.runs && b.decisions == a.decisions[d := b.decisions[d]]
    requires b.decisions[d] == a.decisions[d].(verdict := b.decisions[d].verdict, conditions := b.decisions[d].conditions,
                                               humanApproved := b.decisions[d].humanApproved,
                                               actionAllowed := b.decisions[d].actionAllowed, evaluatedAt := b.decisions[d].evaluatedAt)
    ensures RequestsStay(a, b) && b.runs.Keys == a.runs.Keys && b.decisions.Keys == a.decisions.Keys
  {
  }

  lemma CallKeepsRequests(w: World, call: Call, hashes: Hashes, now: int)
    requires Inv(w, hashes) && Asked(w.db)
    ensures RequestsStay(w.db, After(w, call, hashes, now).db) && Asked(After(w, call, hashes, now).db)
  {
    hide *;
    InvParts(w, hashes);
    AfterEachCall(w, call, hashes, now);
    var t := After(w, call, hashes, now);
    match call
    case Create(input) => CreateKeepsRequests(w, input, hashes, now);
    case Add(run, event) => AddKeepsRequests(w.db, run, event, w.drawn, now);
    case Analyse(run, proposal) => AnalyseKeepsRequests(w, run, proposal, hashes, now);
    case PlanChecks(d, spec) =>
      PlanKeepsRuns(w.db, d, spec, w.drawn, now);
      SameAsked(w.db, t.db);
    case Execute(check, request, executed) =>
      ExecuteKeepsRuns(w.db, check, request, executed, hashes, now);
      SameAsked(w.db, t.db);
    case Judge(d, approved) => JudgeKeepsRequests(w, d, approved, hashes, now);
  }

  lemma SameAsked(a: Db, b: Db)
    requires Asked(a) && b.runs == a.runs && b.decisions == a.decisions
    ensures RequestsStay(a, b) && Asked(b)
  {
  }

  lemma {:induction false} ReachableAsked(worlds: seq<World>, calls: seq<Call>, times: seq<int>, hashes: Hashes, i: nat)
    requires History(worlds, calls, times, hashes) && i < |worlds|
    ensures Asked(worlds[i].db)
  {
    hide After, Inv, TrimSpace;
    if i > 0 {
      ReachableAsked(worlds, calls, times, hashes, i - 1);
      ReachableKeepsInv(worlds, calls, times, hashes, i - 1);
      CallKeepsRequests(worlds[i - 1], calls[i - 1], hashes, times[i - 1]);
    }
  }

  /** What was asked of a run and a decision stays as it was asked. */
  lemma {:induction false} RequestsAreForever(worlds: seq<World>, calls: seq<Call>, times: seq<int>, hashes: Hashes, i: nat, j: nat)
    requires History(worlds, calls, times, hashes) && i <= j < |worlds|
    ensures RequestsStay(worlds[i].db, worlds[j].db)
    decreases j - i
  {
    hide After, Inv, Asked, TrimSpace;
    if i < j {
      RequestsAreForever(worlds, calls, times, hashes, i, j - 1);
      ReachableAsked(worlds, calls, times, hashes, j - 1);
      ReachableKeepsInv(worlds, calls, times, hashes, j - 1);
      CallKeepsRequests(worlds[j - 1], calls[j - 1], hashes, times[j - 1]);
      RequestsStayOn(worlds[i].db, worlds[j - 1].db, worlds[j].db);
    } else {
      SameRequestsStay(worlds[i].db, worlds[i].db);
    }
  }

  lemma RequestsStayOn(a: Db, b: Db, c: Db)
    requires RequestsStay(a, b) && RequestsStay(b, c)
    ensures RequestsStay(a, c)
  {
  }

  /** Every stored certificate certifies the recommendation its run was created with, under
      the one policy version. */
  lemma CertificateAnswersTheRun(worlds: seq<World>, calls: seq<Call>, times: seq<int>, hashes: Hashes, j: nat, d: string)
    requires History(worlds, calls, times, hashes) && j < |worlds| && d in worlds[j].db.certificates
    ensures var c := worlds[j].db.certificates[d];
            && c.run in worlds[j].db.runs && worlds[j].db.runs[c.run].decision == d
            && c.recommendation == worlds[j].db.runs[c.run].recommendation && TrimSpace(c.recommendation) != ""
            && c.policyVersion == "deployment-readiness/v1"
  {
    hide Inv, After, IssuedCertificates.HashesFor, IssuedCertificates.VerdictFor, TrimSpace, RunsStay;
    var k := IssuedCertificates.StoredCertificateSays(worlds, calls, times, hashes, j, d);
    ReachableAsked(worlds, calls, times, hashes, k);
    RequestsAreForever(worlds, calls, times, hashes, k, j);
    ReachableKeepsInv(worlds, calls, times, hashes, k);
    InvParts(worlds[k], hashes);
    var run := worlds[k].db.decisions[d].run;
    assert run in worlds[k].db.runs && SameRequest(worlds[k].db.runs[run], worlds[j].db.runs[run]);
  }
}
