/** What no service call changes about a run once it is analysed, over whole histories. */
module RunHistory {
  import opened Text
  import opened Domain
  import opened Store
  import opened Service
  import opened Lifecycle
  import Relabel
  import SupportScore

  // ---- Runs stay linked, analysed runs stay analysed

  ghost predicate RunsStay(a: Db, b: Db) {
    && (forall r | r in a.runs ::
          r in b.runs && b.runs[r].decision == a.runs[r].decision && (a.runs[r].status.Analyzed? ==> b.runs[r].status.Analyzed?))
    && (forall d | d in a.decisions :: d in b.decisions && b.decisions[d].run == a.decisions[d].run)
  }

  lemma UpdateKeepsRuns(db: Db, v: Verification)
    ensures UpdateVerification(db, v).runs == db.runs
    ensures UpdateVerification(db, v).decisions == db.decisions
  {
    hide *;
    if v.outcome == "passed" {
      UpdateKeepsCertificates(db, v);
    } else if v.outcome == "failed" {
      UpdateKeepsCertificates(db, v);
    }
  }

  lemma ExecuteKeepsRuns(db: Db, id: string, input: CheckInput, executed: Option<(string, string)>, hashes: Hashes, now: int)
    requires Keyed(db.verifications, VerificationId)
    ensures var t := Service.ExecuteVerification(db, id, input, executed, hashes, now).0;
            t.runs == db.runs && t.decisions == db.decisions
  {
    ExecuteResult(db, id, input, executed, hashes, now);
    if id in db.verifications && CheckRefusal(db.verifications[id], input).None? {
      var v := db.verifications[id];
      assert VerificationId(v) == id;
      var environment := ChosenEnvironment(v, input);
      if input.outcome == "" && input.artifact == "" {
        var running := Approve(v, input).(status := Running);
        UpdateKeepsRuns(db, running);
        UpdateKeepsCertificates(db, running);
        if executed.Some? {
          FinishKeepsRuns(UpdateVerification(db, running), running, environment, executed.value.0, executed.value.1, hashes, now);
        }
      } else {
        FinishKeepsRuns(db, Approve(v, input), environment, input.outcome, input.artifact, hashes, now);
      }
    }
  }

  lemma FinishKeepsRuns(db: Db, v: Verification, environment: string, outcome: string, artifact: string, hashes: Hashes, now: int)
    requires v.id in db.verifications
    ensures var t := Finish(db, v, environment, outcome, artifact, hashes, now).0; t.runs == db.runs && t.decisions == db.decisions
  {
    FinishResult(db, v, environment, outcome, artifact, hashes, now);
    UpdateKeepsRuns(db, Complete(v, environment, outcome, artifact, hashes, now));
  }

  lemma CreateKeepsRuns(db: Db, input: RunInput, n: nat, now: int)
    requires Counted(db, n)
    ensures RunsStay(db, Service.CreateRun(db, input, n, now).0)
  {
    NextIdIsFresh(db.runs, "run", n, n);
    NextIdIsFresh(db.decisions, "dec", n, n);
    var (run, decision) := NewRun(input, n, now);
    NewRunIsStored(db, input, n, now, run, decision);
    FreshRunKeepsRuns(db, run, decision);
  }

  lemma NewRunIsStored(db: Db, input: RunInput, n: nat, now: int, run: Run, decision: Decision)
    requires NewRun(input, n, now) == (run, decision)
    ensures Service.CreateRun(db, input, n, now).0 == db
            || Service.CreateRun(db, input, n, now).0 == Store.CreateRun(db, run, decision)
    ensures run.id == NewId("run", n) && decision.id == NewId("dec", n)
  {
  }

  lemma FreshRunKeepsRuns(db: Db, run: Run, decision: Decision)
    requires run.id !in db.runs && decision.id !in db.decisions
    ensures RunsStay(db, Store.CreateRun(db, run, decision)) && RunsStay(db, db)
  {
  }

  lemma AddKeepsRuns(db: Db, run: string, event: EventInput, n: nat, now: int)
    ensures RunsStay(db, Service.AddEvent(db, run, event, n, now).0)
  {
    ServiceAddsAtMostOne(db, run, event, n, now);
    var e := NewEvent(event, n, now);
    if run in db.runs && FindExternal(db.runs[run].events, e.externalId).None? {
      StoredEventChangesOneRun(db, run, e);
    }
  }

  lemma AnalyseKeepsRuns(db: Db, run: string, proposal: Option<Analysis>, n: nat, now: int)
    requires KeyedById(db) && RunsLinked(db.runs, db.decisions)
    ensures RunsStay(db, Service.Analyze(db, run, proposal, n, now).0)
  {
    AnalyzeResult(db, run, proposal, n, now);
    if Analyses(db, run, proposal) {
      SavingMarksTheRun(db, run, Relabel.Relabelled(proposal.value, n, now, DecisionOf(db, db.runs[run].decision).id));
    }
  }

  lemma SavingMarksTheRun(db: Db, run: string, b: Analysis)
    requires KeyedById(db) && RunsLinked(db.runs, db.decisions) && run in db.runs
    ensures RunsStay(db, SaveAnalysis(db, run, b))
    ensures SaveAnalysis(db, run, b).runs == db.runs[run := db.runs[run].(status := Analyzed)]
  {
  }

  lemma PlanKeepsRuns(db: Db, d: string, spec: Claim -> (string, string), n: nat, now: int)
    requires KeyedById(db) && RunsLinked(db.runs, db.decisions)
    ensures var t := Service.Plan(db, d, spec, n, now).0; t.runs == db.runs && t.decisions == db.decisions
  {
    PlanResult(db, d, spec, n, now);
  }

  lemma JudgeKeepsRuns(db: Db, d: string, approved: bool, hashes: Hashes, now: int)
    requires KeyedById(db) && RunsLinked(db.runs, db.decisions)
    ensures var t := Service.Evaluate(db, d, approved, hashes, now).0; t.runs == db.runs && RunsStay(db, t)
  {
    hide *;
    EvaluateResult(db, d, approved, hashes, now);
    NothingMeansRunsStay(db);
    if d in db.decisions {
      var g := Project(db, RunOf(db, DecisionOf(db, d).run));
      JudgedIsTheDecision(db, d, approved, now);
      RecordedVerdictKeepsRuns(db, Judged(g, approved, now), Issue(g, approved, hashes, now), d);
    }
  }

  lemma NothingMeansRunsStay(db: Db)
    ensures RunsStay(db, db)
  {
  }

  lemma JudgedIsTheDecision(db: Db, d: string, approved: bool, now: int)
    requires KeyedById(db) && RunsLinked(db.runs, db.decisions) && d in db.decisions
    ensures var judged := Judged(Project(db, RunOf(db, DecisionOf(db, d).run)), approved, now);
            judged.id == d && judged.run == db.decisions[d].run
  {
    GraphOfDecision(db, d);
  }

  lemma RecordedVerdictKeepsRuns(db: Db, judged: Decision, c: Certificate, d: string)
    requires d in db.decisions && judged.id == d && judged.run == db.decisions[d].run
    ensures var t := SaveCertificate(SaveDecision(db, judged), c); t.runs == db.runs && RunsStay(db, t)
  {
  }

  lemma SameRunsStay(a: Db, b: Db)
    requires b.runs == a.runs && b.decisions == a.decisions
    ensures RunsStay(a, b)
  {
  }

  lemma CallKeepsRuns(w: World, call: Call, hashes: Hashes, now: int)
    requires Inv(w, hashes)
    ensures RunsStay(w.db, After(w, call, hashes, now).db)
  {
    hide *;
    InvParts(w, hashes);
    AfterEachCall(w, call, hashes, now);
    match call
    case Create(input) => CreateKeepsRuns(w.db, input, w.drawn, now);
    case Add(run, event) => AddKeepsRuns(w.db, run, event, w.drawn, now);
    case Analyse(run, proposal) =>
      AnalyseKeepsRuns(w.db, run, proposal, w.drawn, now);
    case PlanChecks(d, spec) =>
      PlanKeepsRuns(w.db, d, spec, w.drawn, now);
      SameRunsStay(w.db, After(w, call, hashes, now).db);
    case Execute(check, request, executed) =>
      ExecuteKeepsRuns(w.db, check, request, executed, hashes, now);
      SameRunsStay(w.db, After(w, call, hashes, now).db);
    case Judge(d, approved) => JudgeKeepsRuns(w.db, d, approved, hashes, now);
  }

  // ---- What was analysed for a decision never changes again

  function AnalysedOf(w: World, d: string): map<string, Claim> {
    map k | k in w.analysed && w.analysed[k].decision == d :: w.analysed[k]
  }

  /** The store and the history have the same claim IDs, under the same decisions. */
  lemma AnalysedDecisions(w: World, k: string, hashes: Hashes)
    requires Inv(w, hashes)
    ensures k in w.db.claims <==> k in w.analysed
    ensures k in w.db.claims ==> w.db.claims[k].decision == w.analysed[k].decision
  {
    hide Completes, Tables;
    if k in w.db.claims {
      assert Replays(w.db.claims[k], w.analysed[k], w.db.verifications, k);
    }
  }

  /** New claims join the history and change none of it. */
  ghost predicate JoinHistory(before: map<string, Claim>, after: map<string, Claim>, claims: seq<Claim>, d: string) {
    && (forall k | k in before :: k in after && after[k] == before[k])
    && (forall k | k in after && k !in before :: after[k] in claims && after[k].decision == d)
    && (forall c | c in claims :: c.id in after && after[c.id] == c && c.id !in before)
  }

  lemma NewClaimsJoin(analysed: map<string, Claim>, claims: seq<Claim>, n: nat, d: string)
    requires Lifecycle.Numbered(analysed, "clm", n)
    requires forall i | 0 <= i < |claims| :: claims[i].id == NewId("clm", n + i) && claims[i].decision == d
    ensures JoinHistory(analysed, PutAll(analysed, claims, ClaimId), claims, d)
  {
    PutNumbered(analysed, claims, ClaimId, "clm", n, n + |claims|);
    forall c | c in claims ensures c.id in PutAll(analysed, claims, ClaimId) && c.id !in analysed
                                   && PutAll(analysed, claims, ClaimId)[c.id] == c {
      assert ClaimId(c) == c.id;
    }
  }

  lemma NewClaimsAreNumbered(p: Analysis, n: nat, now: int, d: string)
    ensures var claims := Relabel.Relabelled(p, n, now, d).claims;
            forall i | 0 <= i < |claims| :: claims[i].id == NewId("clm", n + i) && claims[i].decision == d
  {
    RelabelledRelabels(p, n, now, d);
  }

  /** A new analysis adds its own claims to the history and keeps the others. */
  lemma AnalysisAddsToHistory(w: World, run: string, p: Analysis, now: int, hashes: Hashes)
    requires Inv(w, hashes) && run in w.db.runs && w.db.runs[run].status.Ingesting?
    ensures var d := w.db.runs[run].decision;
            JoinHistory(w.analysed, AfterAnalysis(w, run, p, now).analysed, Relabel.Relabelled(p, w.drawn, now, d).claims, d)
  {
    hide *;
    InvParts(w, hashes);
    var d := w.db.runs[run].decision;
    NewClaimsAreNumbered(p, w.drawn, now, d);
    AnalysisIsSaved(w, run, p, now);
    SameKeysNumbered(w.db.claims, w.analysed, "clm", w.drawn);
    NewClaimsJoin(w.analysed, Relabel.Relabelled(p, w.drawn, now, d).claims, w.drawn, d);
  }

  lemma OtherClaimsKeep(w: World, t: World, claims: seq<Claim>, own: string, d: string)
    requires JoinHistory(w.analysed, t.analysed, claims, own) && own != d
    ensures AnalysedOf(t, d) == AnalysedOf(w, d)
  {
  }

  lemma OwnClaimsJoin(before: map<string, Claim>, after: map<string, Claim>, claims: seq<Claim>, d: string)
    requires JoinHistory(before, after, claims, d) && forall c | c in claims :: c.decision == d
    requires forall k | k in before :: before[k].decision != d
    ensures var own := map k | k in after && after[k].decision == d :: after[k];
            (forall k | k in own :: own[k] in claims) && (forall c | c in claims :: c.id in own && own[c.id] == c)
  {
  }

  lemma OtherCallsKeepHistory(w: World, call: Call, hashes: Hashes, now: int)
    requires call.Analyse? ==> !Analyses(w.db, call.run, call.proposal)
    ensures After(w, call, hashes, now).analysed == w.analysed
  {
  }

  lemma SettledIsNotNew(w: World, run: string, d: string, hashes: Hashes)
    requires Inv(w, hashes) && Settled(w.db.runs, w.db.decisions, d) && run in w.db.runs && w.db.runs[run].status.Ingesting?
    ensures w.db.runs[run].decision != d
  {
  }

  lemma CallKeepsAnalysed(w: World, call: Call, d: string, hashes: Hashes, now: int)
    requires Inv(w, hashes) && Settled(w.db.runs, w.db.decisions, d)
    ensures AnalysedOf(After(w, call, hashes, now), d) == AnalysedOf(w, d)
  {
    hide Inv;
    if call.Analyse? && Analyses(w.db, call.run, call.proposal) {
      SettledIsNotNew(w, call.run, d, hashes);
      AnalysisAddsToHistory(w, call.run, call.proposal.value, now, hashes);
      var own := w.db.runs[call.run].decision;
      OtherClaimsKeep(w, After(w, call, hashes, now), Relabel.Relabelled(call.proposal.value, w.drawn, now, own).claims, own, d);
    } else {
      OtherCallsKeepHistory(w, call, hashes, now);
    }
  }

  /** The analysed claims of a decision are those its analysis proposed, relabelled. */
  lemma OwnAnalysis(w: World, run: string, p: Analysis, now: int, hashes: Hashes)
    requires Inv(w, hashes) && run in w.db.runs && w.db.runs[run].status.Ingesting?
    ensures var d := w.db.runs[run].decision;
            var t := After(w, Analyse(run, Some(p)), hashes, now);
            && Settled(t.db.runs, t.db.decisions, d)
            && (forall k | k in AnalysedOf(t, d) :: AnalysedOf(t, d)[k] in Relabel.Relabelled(p, w.drawn, now, d).claims)
            && (forall c | c in Relabel.Relabelled(p, w.drawn, now, d).claims :: c.id in AnalysedOf(t, d) && AnalysedOf(t, d)[c.id] == c)
  {
    hide Inv, Settled, Relabel.Relabelled;
    var d := w.db.runs[run].decision;
    var t := After(w, Analyse(run, Some(p)), hashes, now);
    assert t == AfterAnalysis(w, run, p, now);
    AnalysisAddsToHistory(w, run, p, now, hashes);
    AnalysisSettles(w, run, p, now, hashes);
    RelabelledRelabels(p, w.drawn, now, d);
    NothingAnalysedYet(w, run, hashes);
    OwnClaimsJoin(w.analysed, t.analysed, Relabel.Relabelled(p, w.drawn, now, d).claims, d);
  }

  lemma AnalysisSettles(w: World, run: string, p: Analysis, now: int, hashes: Hashes)
    requires Inv(w, hashes) && run in w.db.runs && w.db.runs[run].status.Ingesting?
    ensures var t := AfterAnalysis(w, run, p, now); Settled(t.db.runs, t.db.decisions, w.db.runs[run].decision)
  {
    AnalysisIsSaved(w, run, p, now);
    SavingMarksTheRun(w.db, run, Relabel.Relabelled(p, w.drawn, now, w.db.runs[run].decision));
  }

  lemma NothingAnalysedYet(w: World, run: string, hashes: Hashes)
    requires Inv(w, hashes) && run in w.db.runs && w.db.runs[run].status.Ingesting?
    ensures forall k | k in w.analysed :: w.analysed[k].decision != w.db.runs[run].decision
  {
    UnanalysedOwnsNothing(w, run, hashes);
    forall k | k in w.analysed ensures w.analysed[k].decision != w.db.runs[run].decision {
      AnalysedDecisions(w, k, hashes);
    }
  }

  lemma {:induction false} HistoryKeepsAnalysed(worlds: seq<World>, calls: seq<Call>, times: seq<int>, hashes: Hashes,
                                                i: nat, j: nat, d: string)
    requires History(worlds, calls, times, hashes) && i <= j < |worlds|
    requires Settled(worlds[i].db.runs, worlds[i].db.decisions, d)
    ensures AnalysedOf(worlds[j], d) == AnalysedOf(worlds[i], d)
    ensures Settled(worlds[j].db.runs, worlds[j].db.decisions, d)
  {
    hide After, Inv, AnalysedOf;
    if i < j {
      HistoryKeepsAnalysed(worlds, calls, times, hashes, i, j - 1, d);
      ReachableKeepsInv(worlds, calls, times, hashes, j - 1);
      CallKeepsAnalysed(worlds[j - 1], calls[j - 1], d, hashes, times[j - 1]);
      CallKeepsRuns(worlds[j - 1], calls[j - 1], hashes, times[j - 1]);
    }
  }

  // ---- Only judging a decision issues its certificate

  lemma OtherCallsKeepCertificates(w: World, call: Call, hashes: Hashes, now: int)
    requires Inv(w, hashes) && !call.Judge?
    ensures After(w, call, hashes, now).db.certificates == w.db.certificates
  {
    hide *;
    InvParts(w, hashes);
    AfterEachCall(w, call, hashes, now);
    match call
    case Create(input) => CreatingKeepsOtherTables(w.db, input, w.drawn, now);
    case Add(run, event) => AddingKeepsOtherTables(w.db, run, event, w.drawn, now);
    case Analyse(run, proposal) => AnalyseKeepsOtherTables(w.db, run, proposal, w.drawn, now);
    case PlanChecks(other, spec) => PlanKeepsCertificates(w.db, other, spec, w.drawn, now);
    case Execute(check, request, executed) => ExecuteKeepsCertificates(w.db, check, request, executed, hashes, now);
  }

  lemma JudgingIssuesItsOwn(db: Db, other: string, approved: bool, d: string, hashes: Hashes, now: int)
    requires KeyedById(db) && RunsLinked(db.runs, db.decisions)
    requires d !in db.certificates && d in Service.Evaluate(db, other, approved, hashes, now).0.certificates
    ensures other == d && d in db.decisions
    ensures Service.Evaluate(db, d, approved, hashes, now).1 == Ok(Service.Evaluate(db, other, approved, hashes, now).0.certificates[d])
  {
    EvaluateResult(db, other, approved, hashes, now);
    if other in db.decisions {
      GraphOfDecision(db, other);
      IssuedCarriesItsDigest(Project(db, RunOf(db, DecisionOf(db, other).run)), approved, hashes, now);
    }
  }

  lemma OnlyJudgingIssues(w: World, call: Call, d: string, hashes: Hashes, now: int)
    requires Inv(w, hashes) && d !in w.db.certificates && d in After(w, call, hashes, now).db.certificates
    ensures call.Judge? && call.decision == d && d in w.db.decisions
    ensures Service.Evaluate(w.db, d, call.approved, hashes, now).1 == Ok(After(w, call, hashes, now).db.certificates[d])
  {
    hide *;
    InvParts(w, hashes);
    AfterEachCall(w, call, hashes, now);
    if call.Judge? {
      JudgingIssuesItsOwn(w.db, call.decision, call.approved, d, hashes, now);
    } else {
      OtherCallsKeepCertificates(w, call, hashes, now);
    }
  }

  /** Every certificate was issued by some call of the history. */
  lemma CertificateWasIssued(worlds: seq<World>, calls: seq<Call>, times: seq<int>, hashes: Hashes, i: nat, j: nat, d: string)
      returns (k: nat)
    requires History(worlds, calls, times, hashes) && i <= j < |worlds|
    requires d !in worlds[i].db.certificates && d in worlds[j].db.certificates
    ensures i <= k < j && d !in worlds[k].db.certificates && d in worlds[k].db.decisions
    ensures calls[k].Judge? && calls[k].decision == d
    ensures Service.Evaluate(worlds[k].db, d, calls[k].approved, hashes, times[k]).1 == Ok(worlds[j].db.certificates[d])
  {
    k := CertificateAppears(worlds, i, j, d);
    IssuedNow(worlds, calls, times, hashes, k, d);
    HistoryGrows(worlds, calls, times, hashes, k + 1, j);
  }

  /** Between a world without and one with a certificate there is a step that adds it. */
  lemma {:induction false} CertificateAppears(worlds: seq<World>, i: nat, j: nat, d: string) returns (k: nat)
    requires i <= j < |worlds| && d !in worlds[i].db.certificates && d in worlds[j].db.certificates
    ensures i <= k < j && d !in worlds[k].db.certificates && d in worlds[k + 1].db.certificates
  {
    if d in worlds[j - 1].db.certificates {
      k := CertificateAppears(worlds, i, j - 1, d);
    } else {
      k := j - 1;
    }
  }

  lemma IssuedNow(worlds: seq<World>, calls: seq<Call>, times: seq<int>, hashes: Hashes, k: nat, d: string)
    requires History(worlds, calls, times, hashes) && k < |calls|
    requires d !in worlds[k].db.certificates && d in worlds[k + 1].db.certificates
    ensures calls[k].Judge? && calls[k].decision == d && d in worlds[k].db.decisions
    ensures Service.Evaluate(worlds[k].db, d, calls[k].approved, hashes, times[k]).1 == Ok(worlds[k + 1].db.certificates[d])
  {
    ReachableKeepsInv(worlds, calls, times, hashes, k);
    OnlyJudgingIssues(worlds[k], calls[k], d, hashes, times[k]);
  }

  // ---- Events of a run have distinct IDs

  ghost predicate EventIdsFresh(events: seq<Event>, n: nat) {
    && (forall i | 0 <= i < |events| :: IsId("evt", events[i].id, n))
    && (forall i, j | 0 <= i < j < |events| :: events[i].id != events[j].id)
  }

  ghost predicate EventsNumbered(runs: map<string, Run>, n: nat) {
    forall r | r in runs :: EventIdsFresh(runs[r].events, n)
  }

  lemma EventIdsStayFresh(events: seq<Event>, n: nat, more: nat)
    requires EventIdsFresh(events, n) && n <= more
    ensures EventIdsFresh(events, more)
  {
    forall i | 0 <= i < |events| ensures IsId("evt", events[i].id, more) {
      assert IsId("evt", events[i].id, n);
    }
  }

  lemma NextEventIsFresh(events: seq<Event>, e: Event, n: nat)
    requires EventIdsFresh(events, n) && e.id == NewId("evt", n)
    ensures EventIdsFresh(events + [e], n + 1)
  {
    var more := events + [e];
    EventIdsStayFresh(events, n, n + 1);
    assert IsId("evt", e.id, n + 1);
    forall i | 0 <= i < |events| ensures events[i].id != e.id {
      assert IsId("evt", events[i].id, n);
      var m: nat :| m < n && events[i].id == NewId("evt", m);
      if NewId("evt", m) == NewId("evt", n) {
        NewIdIsInjective("evt", m, "evt", n);
      }
    }
  }

  /** Runs that keep their events keep them numbered. */
  lemma SameEventsStayFresh(a: map<string, Run>, b: map<string, Run>, n: nat, more: nat)
    requires EventsNumbered(a, n) && n <= more
    requires forall r | r in b :: b[r].events == [] || (r in a && b[r].events == a[r].events)
    ensures EventsNumbered(b, more)
  {
    forall r | r in b ensures EventIdsFresh(b[r].events, more) {
      if r in a {
        EventIdsStayFresh(a[r].events, n, more);
      }
    }
  }

  lemma AddKeepsEvents(db: Db, run: string, event: EventInput, n: nat, now: int)
    requires EventsNumbered(db.runs, n)
    ensures EventsNumbered(Service.AddEvent(db, run, event, n, now).0.runs, n + 1)
  {
    ServiceAddsAtMostOne(db, run, event, n, now);
    SameEventsStayFresh(db.runs, db.runs, n, n + 1);
    var e := NewEvent(event, n, now);
    if run in db.runs && FindExternal(db.runs[run].events, e.externalId).None? {
      StoredEventChangesOneRun(db, run, e);
      NextEventIsFresh(db.runs[run].events, Store.Numbered(db.runs[run].events, e), n);
    }
  }

  lemma CreateKeepsEvents(db: Db, input: RunInput, n: nat, now: int)
    requires EventsNumbered(db.runs, n)
    ensures EventsNumbered(Service.CreateRun(db, input, n, now).0.runs, n + 1)
  {
    var (run, decision) := NewRun(input, n, now);
    NewRunIsStored(db, input, n, now, run, decision);
    SameEventsStayFresh(db.runs, db.runs, n, n + 1);
    SameEventsStayFresh(db.runs, Store.CreateRun(db, run, decision).runs, n, n + 1);
  }

  lemma SavedAnalysisMarks(w: World, run: string, p: Analysis, hashes: Hashes, now: int)
    requires Inv(w, hashes) && run in w.db.runs && w.db.runs[run].status.Ingesting?
    ensures var t := AfterAnalysis(w, run, p, now);
            t.db.runs == w.db.runs[run := w.db.runs[run].(status := Analyzed)] && t.drawn == w.drawn + Relabel.Drawn(p)
  {
    AnalysisIsSaved(w, run, p, now);
    SavingMarksTheRun(w.db, run, Relabel.Relabelled(p, w.drawn, now, w.db.runs[run].decision));
  }

  lemma AnalyseKeepsEvents(w: World, run: string, proposal: Option<Analysis>, hashes: Hashes, now: int)
    requires Inv(w, hashes) && EventsNumbered(w.db.runs, w.drawn)
    ensures var t := After(w, Analyse(run, proposal), hashes, now); EventsNumbered(t.db.runs, t.drawn)
  {
    hide Inv, Relabel.Relabelled, EventsNumbered, ExecuteVerification;
    if Analyses(w.db, run, proposal) {
      SavedAnalysisMarks(w, run, proposal.value, hashes, now);
      var marked := w.db.runs[run := w.db.runs[run].(status := Analyzed)];
      SameEventsStayFresh(w.db.runs, marked, w.drawn, w.drawn + Relabel.Drawn(proposal.value));
    } else {
      AnalyzeResult(w.db, run, proposal, w.drawn, now);
    }
  }

  lemma CallKeepsEvents(w: World, call: Call, hashes: Hashes, now: int)
    requires Inv(w, hashes) && EventsNumbered(w.db.runs, w.drawn)
    ensures var t := After(w, call, hashes, now); EventsNumbered(t.db.runs, t.drawn)
  {
    hide *;
    InvParts(w, hashes);
    AfterEachCall(w, call, hashes, now);
    match call
    case Create(input) => CreateKeepsEvents(w.db, input, w.drawn, now);
    case Add(run, event) => AddKeepsEvents(w.db, run, event, w.drawn, now);
    case Analyse(run, proposal) => AnalyseKeepsEvents(w, run, proposal, hashes, now);
    case PlanChecks(d, spec) =>
      PlanKeepsRuns(w.db, d, spec, w.drawn, now);
      SameEventsStayFresh(w.db.runs, w.db.runs, w.drawn, w.drawn + |ClaimsOf(w.db, d)|);
    case Execute(check, request, executed) => ExecuteKeepsRuns(w.db, check, request, executed, hashes, now);
    case Judge(d, approved) => JudgeKeepsRuns(w.db, d, approved, hashes, now);
  }

  lemma {:induction false} ReachableEventsNumbered(worlds: seq<World>, calls: seq<Call>, times: seq<int>, hashes: Hashes, i: nat)
    requires History(worlds, calls, times, hashes) && i < |worlds|
    ensures EventsNumbered(worlds[i].db.runs, worlds[i].drawn)
  {
    hide After, Inv;
    if i > 0 {
      ReachableEventsNumbered(worlds, calls, times, hashes, i - 1);
      ReachableKeepsInv(worlds, calls, times, hashes, i - 1);
      CallKeepsEvents(worlds[i - 1], calls[i - 1], hashes, times[i - 1]);
    }
  }

  // ---- Support stays bounded

  /** The analyzer's own scores lie in the unit interval. */
  ghost predicate Bounded(p: Analysis) {
    forall c | c in p.claims :: SupportScore.InUnit(c.support)
  }

  ghost predicate BoundedCall(call: Call) {
    call.Analyse? && call.proposal.Some? ==> Bounded(call.proposal.value)
  }

  ghost predicate BoundedHistory(w: World) {
    forall k | k in w.analysed :: SupportScore.InUnit(w.analysed[k].support)
  }

  lemma RelabelledIsBounded(p: Analysis, n: nat, now: int, d: string)
    requires Bounded(p)
    ensures Bounded(Relabel.Relabelled(p, n, now, d))
  {
    var b := Relabel.Relabelled(p, n, now, d);
    forall c | c in b.claims ensures SupportScore.InUnit(c.support) {
      var j :| 0 <= j < |b.claims| && b.claims[j] == c;
      PreparedIsBounded(p.claims[j], j, n, now, d);
      assert p.claims[j] in p.claims;
      assert c.support == Relabel.Prepared(p.claims[j], j, n, now, d).support;
    }
  }

  lemma PreparedIsBounded(c: Claim, j: nat, n: nat, now: int, d: string)
    ensures SupportScore.InUnit(c.support) ==> SupportScore.InUnit(Relabel.Prepared(c, j, n, now, d).support)
  {
  }

  lemma JoinedIsBounded(before: map<string, Claim>, after: map<string, Claim>, claims: seq<Claim>, d: string)
    requires JoinHistory(before, after, claims, d)
    requires forall k | k in before :: SupportScore.InUnit(before[k].support)
    requires forall c | c in claims :: SupportScore.InUnit(c.support)
    ensures forall k | k in after :: SupportScore.InUnit(after[k].support)
  {
    hide SupportScore.InUnit;
  }

  lemma CallKeepsBounds(w: World, call: Call, hashes: Hashes, now: int)
    requires Inv(w, hashes) && BoundedHistory(w) && BoundedCall(call)
    ensures BoundedHistory(After(w, call, hashes, now))
  {
    hide Inv, SupportScore.InUnit, JoinHistory, Relabel.Relabelled, AfterAnalysis;
    if call.Analyse? && Analyses(w.db, call.run, call.proposal) {
      var p, d := call.proposal.value, w.db.runs[call.run].decision;
      AnalysisAddsToHistory(w, call.run, p, now, hashes);
      RelabelledIsBounded(p, w.drawn, now, d);
      JoinedIsBounded(w.analysed, AfterAnalysis(w, call.run, p, now).analysed, Relabel.Relabelled(p, w.drawn, now, d).claims, d);
    } else {
      OtherCallsKeepHistory(w, call, hashes, now);
    }
  }

  lemma {:induction false} AnalysedSupportIsBounded(worlds: seq<World>, calls: seq<Call>, times: seq<int>, hashes: Hashes, i: nat)
    requires History(worlds, calls, times, hashes) && i < |worlds|
    requires forall k | 0 <= k < i :: BoundedCall(calls[k])
    ensures BoundedHistory(worlds[i])
  {
    if i > 0 {
      AnalysedSupportIsBounded(worlds, calls, times, hashes, i - 1);
      ReachableKeepsInv(worlds, calls, times, hashes, i - 1);
      CallKeepsBounds(worlds[i - 1], calls[i - 1], hashes, times[i - 1]);
    }
  }

  /** When every proposal is scored in bounds, so is every stored claim, whatever checks
      were executed. */
  lemma StoredSupportIsBounded(worlds: seq<World>, calls: seq<Call>, times: seq<int>, hashes: Hashes, i: nat, k: string)
    requires History(worlds, calls, times, hashes) && i < |worlds| && k in worlds[i].db.claims
    requires forall j | 0 <= j < i :: BoundedCall(calls[j])
    ensures SupportScore.InUnit(worlds[i].db.claims[k].support)
  {
    hide SupportScore.InUnit;
    ReachableKeepsInv(worlds, calls, times, hashes, i);
    AnalysedSupportIsBounded(worlds, calls, times, hashes, i);
    var w := worlds[i];
    assert k in w.analysed && Replays(w.db.claims[k], w.analysed[k], w.db.verifications, k);
    ReplayIsBounded(w.db.claims[k], w.analysed[k], w.db.verifications, k);
  }

  lemma ReplayIsBounded(stored: Claim, original: Claim, checks: map<string, Verification>, k: string)
    requires Replays(stored, original, checks, k) && SupportScore.InUnit(original.support)
    ensures SupportScore.InUnit(stored.support)
  {
    if j :| Completes(checks, j, k) {
      assert stored == Checked(original, checks[j]);
    }
  }
}
