/** The decision lifecycle (apps/control-plane/internal/service/service.go) as functions of
    the repository contents. `n` numbers the next fresh ID, `now` is the clock; the
    analyzer's proposal and the executor's result are parameters. */
module Service {
  import opened Text
  import opened Domain
  import opened Store
  import Portfolio
  import Sorting
  import Policy
  import Relabel

  datatype Failure = NotFound | Invalid | Conflict | AnalyzerFailed | ExecutorFailed

  datatype Result<T> = Ok(value: T) | Failed(failure: Failure)

  /** SHA-256 of an artifact, and of a certificate's JSON. */
  datatype Hashes = Hashes(artifact: string -> string, certificate: Certificate -> string)

  // ---- Runs and events

  /** The last three say where the run belongs. */
  datatype RunInput = RunInput(trace: string, title: string, recommendation: string, actionType: string,
                               account: string, project: string, aiSystem: string)

  function NewRun(input: RunInput, n: nat, now: int): (Run, Decision) {
    var title := if input.title == "" then "Deployment readiness review" else input.title;
    var actionType := if input.actionType == "" then "software_deployment" else input.actionType;
    (Run(NewId("run", n), input.trace, title, input.recommendation, Ingesting, NewId("dec", n), [], now,
         input.account, input.project, input.aiSystem),
     Decision(NewId("dec", n), NewId("run", n), input.recommendation, actionType, Policy.VERSION, None, false, false,
              [], [], now, None))
  }

  /** The lookups before a run is made: a named project must exist and belong to the named
      account, the account must exist, a named AI system must exist and belong to the named
      project. The run gets the project's account. */
  function Resolve(d: Portfolio.Directory, input: RunInput): Result<RunInput> {
    if input.project != "" && input.project !in d.projects then Failed(NotFound)
    else if input.project != "" && input.account != "" && input.account != d.projects[input.project].account then Failed(Invalid)
    else
      var account := if input.project != "" then d.projects[input.project].account else input.account;
      if account != "" && account !in d.accounts then Failed(NotFound)
      else if input.aiSystem != "" && input.aiSystem !in d.systems then Failed(NotFound)
      else if input.aiSystem != "" && (input.project == "" || d.systems[input.aiSystem].project != input.project) then Failed(Invalid)
      else Ok(input.(account := account))
  }

  /** Where a run may belong. */
  ghost predicate BelongsSomewhere(d: Portfolio.Directory, input: RunInput) {
    && (input.project != "" ==>
          input.project in d.projects && input.account == d.projects[input.project].account)
    && (input.account != "" ==> input.account in d.accounts)
    && (input.aiSystem != "" ==>
          && input.project != "" && input.aiSystem in d.systems && d.systems[input.aiSystem].project == input.project)
  }

  /** A request passes exactly when it can be completed with an account so that everything it
      names exists and fits together, and the run made of it is so completed. */
  lemma ResolvedBelongs(d: Portfolio.Directory, input: RunInput)
    ensures Resolve(d, input).Ok? <==>
              exists account: string :: (input.account == "" || input.account == account)
                                        && (input.project == "" ==> account == input.account)
                                        && BelongsSomewhere(d, input.(account := account))
    ensures Resolve(d, input).Ok? ==>
              && BelongsSomewhere(d, Resolve(d, input).value)
              && Resolve(d, input).value == input.(account := Resolve(d, input).value.account)
  {
    var account := if input.project != "" && input.project in d.projects then d.projects[input.project].account else input.account;
    if Resolve(d, input).Ok? {
      assert BelongsSomewhere(d, input.(account := account));
    }
  }

  /** "Not found" when something named is missing, "invalid" when what is named does not fit
      together; the project is looked up first, then the account, then the AI system. */
  lemma ResolveRefuses(d: Portfolio.Directory, input: RunInput)
    ensures var r := Resolve(d, input);
            var known := input.project == "" || input.project in d.projects;
            var fits := known && (input.project == "" || input.account == "" || input.account == d.projects[input.project].account);
            var account := if fits && input.project != "" then d.projects[input.project].account else input.account;
            var owned := fits && (account == "" || account in d.accounts);
            && (r == Failed(Invalid) <==>
                  || (known && !fits)
                  || (owned && input.aiSystem != "" && input.aiSystem in d.systems
                      && (input.project == "" || d.systems[input.aiSystem].project != input.project)))
            && (r == Failed(NotFound) <==> !known || (fits && !owned) || (owned && input.aiSystem != "" && input.aiSystem !in d.systems))
            && (r.Failed? ==> r.failure in {NotFound, Invalid})
  {
  }

  function CreateRun(db: Db, input: RunInput, n: nat, now: int): (Db, Result<Run>) {
    if TrimSpace(input.recommendation) == "" then (db, Failed(Invalid))
    else
      var (run, decision) := NewRun(input, n, now);
      (Store.CreateRun(db, run, decision), Ok(run))
  }

  datatype EventInput = EventInput(externalId: string, sequence: int, kind: string, source: string,
                                   correlation: string, occurredAt: int, payload: string)

  function NewEvent(input: EventInput, n: nat, now: int): Event {
    Event(NewId("evt", n), input.externalId, input.sequence, input.kind, if input.source == "" then "agent" else input.source,
          input.correlation, if input.occurredAt == 0 then now else input.occurredAt, input.payload)
  }

  function AddEvent(db: Db, runId: string, input: EventInput, n: nat, now: int): (Db, Result<Event>) {
    if input.kind == "" || input.payload == "" then (db, Failed(Invalid))
    else
      match Store.AddEvent(db, runId, NewEvent(input, n, now))
      case (_, NoSuchRun) => (db, Failed(NotFound))
      case (stored, Added(event, _)) => (stored, Ok(event))
  }

  // ---- Analysis

  /** An already analysed run is only read; otherwise the proposal is relabelled and saved. */
  function Analyze(db: Db, runId: string, proposal: Option<Analysis>, n: nat, now: int): (Db, Result<Graph>) {
    if runId !in db.runs then (db, Failed(NotFound))
    else if db.runs[runId].status.Analyzed? then (db, Ok(Project(db, db.runs[runId])))
    else if proposal.None? then (db, Failed(AnalyzerFailed))
    else
      var d := DecisionOf(db, db.runs[runId].decision).id;
      var saved := SaveAnalysis(db, runId, Relabel.Relabelled(proposal.value, n, now, d));
      (saved, Ok(Project(saved, saved.runs[runId])))
  }

  // ---- Verification

  predicate NeedsCheck(c: Claim) {
    c.critical && !c.state.Supported? && !c.state.ExternallyVerified?
  }

  /** `SpecificationForClaim` is a parameter: it yields a kind and a specification. */
  function Check(c: Claim, d: string, spec: Claim -> (string, string), n: nat, now: int): Verification {
    Verification(NewId("ver", n), d, c.id, "Create and run the smallest targeted check for: " + c.statement,
                 spec(c).0, spec(c).1, "sandbox", Planned, true, false, "", "", "", "", now, None)
  }

  function Checks(claims: seq<Claim>, d: string, spec: Claim -> (string, string), n: nat, now: int): seq<Verification> {
    if claims == [] then []
    else
      var front := Checks(claims[..|claims| - 1], d, spec, n, now);
      var last := claims[|claims| - 1];
      front + if NeedsCheck(last) then [Check(last, d, spec, n + |front|, now)] else []
  }

  function Plan(db: Db, d: string, spec: Claim -> (string, string), n: nat, now: int): (Db, Result<seq<Verification>>) {
    if d !in db.decisions then (db, Failed(NotFound))
    else
      var g := Project(db, RunOf(db, db.decisions[d].run));
      if |g.verifications| > 0 then (db, Ok(g.verifications))
      else
        var out := Checks(g.claims, d, spec, n, now);
        if out == [] then (db, Ok([])) else (SaveVerifications(db, out), Ok(out))
  }

  datatype CheckInput = CheckInput(environment: string, outcome: string, artifact: string, approved: bool, approvedBy: string)

  function Approve(v: Verification, input: CheckInput): Verification {
    v.(approved := true, approvedBy := if input.approvedBy == "" then "human-reviewer" else input.approvedBy)
  }

  function Complete(v: Verification, environment: string, outcome: string, artifact: string, hashes: Hashes, now: int): Verification {
    v.(environment := environment, outcome := outcome, artifact := artifact, artifactHash := hashes.artifact(artifact),
       status := Completed, executedAt := Some(now))
  }

  /** The refusal of a request before anything is stored. */
  function CheckRefusal(v: Verification, input: CheckInput): Option<Failure> {
    var environment := if input.environment == "" then v.environment else input.environment;
    if v.status.Completed? then Some(Conflict)
    else if environment != "sandbox" && environment != "staging" then Some(Invalid)
    else if v.requiresApproval && !input.approved then Some(Invalid)
    else None
  }

  /** `executed` is what the controlled runner returns when the caller brought no outcome. */
  function ExecuteVerification(db: Db, id: string, input: CheckInput, executed: Option<(string, string)>, hashes: Hashes,
                               now: int): (Db, Result<Verification>) {
    if id !in db.verifications then (db, Failed(NotFound))
    else if CheckRefusal(db.verifications[id], input).Some? then (db, Failed(CheckRefusal(db.verifications[id], input).value))
    else
      var environment := if input.environment == "" then db.verifications[id].environment else input.environment;
      var approved := Approve(db.verifications[id], input);
      if input.outcome == "" && input.artifact == "" then
        var running := approved.(status := Running);
        var started := UpdateVerification(db, running);
        if executed.None? then (started, Failed(ExecutorFailed))
        else Finish(started, running, environment, executed.value.0, executed.value.1, hashes, now)
      else Finish(db, approved, environment, input.outcome, input.artifact, hashes, now)
  }

  function Finish(db: Db, v: Verification, environment: string, outcome: string, artifact: string, hashes: Hashes,
                  now: int): (Db, Result<Verification>) {
    if outcome != "passed" && outcome != "failed" then (db, Failed(Invalid))
    else if artifact == "" then (db, Failed(Invalid))
    else
      var done := Complete(v, environment, outcome, artifact, hashes, now);
      if done.id !in db.verifications then (db, Failed(NotFound)) else (UpdateVerification(db, done), Ok(done))
  }

  // ---- Evaluation

  function EvidenceHashes(items: seq<Evidence>): seq<string> {
    if items == [] then []
    else
      EvidenceHashes(items[..|items| - 1])
      + if items[|items| - 1].contentHash != "" then [items[|items| - 1].contentHash] else []
  }

  function CheckHashes(checks: seq<Verification>): seq<string> {
    if checks == [] then []
    else
      CheckHashes(checks[..|checks| - 1])
      + if checks[|checks| - 1].artifactHash != "" then [checks[|checks| - 1].artifactHash] else []
  }

  predicate TextOrder(a: string, b: string) { Precedes(a, b) }

  function ArtifactHashes(g: Graph): seq<string> {
    Sorting.Sort(EvidenceHashes(g.evidence) + CheckHashes(g.verifications), TextOrder)
  }

  function Judged(g: Graph, approved: bool, now: int): Decision {
    var result := Policy.Judge(g.claims, g.unknowns, approved);
    g.decision.(verdict := Some(result.verdict), conditions := result.conditions, humanApproved := approved,
                actionAllowed := result.actionAllowed, evaluatedAt := Some(now))
  }

  function Unsigned(g: Graph, d: Decision, verdict: Verdict, now: int): Certificate {
    Certificate("1.0", d.id, d.run, d.recommendation, verdict, d.actionAllowed, d.humanApproved, d.conditions,
                d.policyVersion, ArtifactHashes(g), g.claims, g.verifications, now, "", "")
  }

  /** `CertificateDigest`: the hash with the proof blanked. */
  function Digest(c: Certificate, hashes: Hashes): string {
    hashes.certificate(c.(algorithm := "", digest := ""))
  }

  function Issue(g: Graph, approved: bool, hashes: Hashes, now: int): Certificate {
    var d := Judged(g, approved, now);
    var unsigned := Unsigned(g, d, Policy.Judge(g.claims, g.unknowns, approved).verdict, now);
    unsigned.(algorithm := "SHA-256", digest := Digest(unsigned, hashes))
  }

  function Evaluate(db: Db, d: string, approved: bool, hashes: Hashes, now: int): (Db, Result<Certificate>) {
    if d in db.certificates then (db, Ok(db.certificates[d]))
    else if d !in db.decisions then (db, Failed(NotFound))
    else
      var g := Project(db, RunOf(db, db.decisions[d].run));
      var judged := Judged(g, approved, now);
      if judged.id !in db.decisions then (db, Failed(NotFound))
      else
        var certificate := Issue(g, approved, hashes, now);
        (SaveCertificate(SaveDecision(db, judged), certificate), Ok(certificate))
  }
}
