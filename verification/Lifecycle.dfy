/** Whole runs of the decision lifecycle: an invariant of every state reached by any
    sequence of service calls, and what it says about claims, checks and certificates. */
module Lifecycle {
  import opened Text
  import opened Domain
  import opened Store
  import opened Service
  import Policy
  import Relabel
  import Sorting

  /** The repository, the count of drawn IDs, and two pieces of history: every claim and
      every unknown as its analysis saved it. */
  datatype World = World(db: Db, drawn: nat, analysed: map<string, Claim>, raised: map<string, Unknown>)

  const START := World(EMPTY, 0, map[], map[])

  datatype Call =
    | Create(input: RunInput)
    | Add(run: string, event: EventInput)
    | Analyse(run: string, proposal: Option<Analysis>)
    | PlanChecks(decision: string, spec: Claim -> (string, string))
    | Execute(check: string, request: CheckInput, executed: Option<(string, string)>)
    | Judge(decision: string, approved: bool)

  function After(w: World, call: Call, hashes: Hashes, now: int): World {
    match call
    case Create(input) => w.(db := Service.CreateRun(w.db, input, w.drawn, now).0, drawn := w.drawn + 1)
    case Add(run, event) => w.(db := Service.AddEvent(w.db, run, event, w.drawn, now).0, drawn := w.drawn + 1)
    case Analyse(run, proposal) =>
      if Analyses(w.db, run, proposal) then AfterAnalysis(w, run, proposal.value, now)
      else w.(db := Service.Analyze(w.db, run, proposal, w.drawn, now).0)
    case PlanChecks(d, spec) =>
      w.(db := Service.Plan(w.db, d, spec, w.drawn, now).0, drawn := w.drawn + |ClaimsOf(w.db, d)|)
    case Execute(check, request, executed) =>
      w.(db := Service.ExecuteVerification(w.db, check, request, executed, hashes, now).0)
    case Judge(d, approved) => w.(db := Service.Evaluate(w.db, d, approved, hashes, now).0)
  }

  function AfterAnalysis(w: World, run: string, p: Analysis, now: int): World
    requires run in w.db.runs
  {
    var b := Relabel.Relabelled(p, w.drawn, now, DecisionOf(w.db, w.db.runs[run].decision).id);
    World(Service.Analyze(w.db, run, Some(p), w.drawn, now).0, w.drawn + Relabel.Drawn(p),
          PutAll(w.analysed, b.claims, ClaimId), PutAll(w.raised, b.unknowns, UnknownId))
  }

  /** The call stores an analysis. */
  predicate Analyses(db: Db, run: string, proposal: Option<Analysis>) {
    run in db.runs && db.runs[run].status.Ingesting? && proposal.Some?
  }

  /** Case by case, for proofs that keep `After` folded. */
  lemma AfterEachCall(w: World, call: Call, hashes: Hashes, now: int)
    ensures var t := After(w, call, hashes, now);
            match call
            case Create(input) => t.db == Service.CreateRun(w.db, input, w.drawn, now).0 && t.drawn == w.drawn + 1
            case Add(run, event) => t.db == Service.AddEvent(w.db, run, event, w.drawn, now).0 && t.drawn == w.drawn + 1
            case Analyse(run, proposal) =>
              && t.db == Service.Analyze(w.db, run, proposal, w.drawn, now).0
              && (if Analyses(w.db, run, proposal) then t == AfterAnalysis(w, run, proposal.value, now) else t.drawn == w.drawn)
            case PlanChecks(d, spec) =>
              t.db == Service.Plan(w.db, d, spec, w.drawn, now).0 && t.drawn == w.drawn + |ClaimsOf(w.db, d)|
            case Execute(check, request, executed) =>
              t.db == Service.ExecuteVerification(w.db, check, request, executed, hashes, now).0 && t.drawn == w.drawn
            case Judge(d, approved) => t.db == Service.Evaluate(w.db, d, approved, hashes, now).0 && t.drawn == w.drawn
    ensures (call.Analyse? ==> !Analyses(w.db, call.run, call.proposal)) ==>
              After(w, call, hashes, now).analysed == w.analysed && After(w, call, hashes, now).raised == w.raised
  {
  }

  // ---- The invariant, in parts that name the tables they are about

  ghost predicate IsId(prefix: string, k: string, n: nat) {
    exists m: nat :: m < n && k == NewId(prefix, m)
  }

  ghost predicate Numbered<T>(m: map<string, T>, prefix: string, n: nat) {
    forall k | k in m :: IsId(prefix, k, n)
  }

  ghost predicate RunsLinked(runs: map<string, Run>, decisions: map<string, Decision>) {
    && (forall r | r in runs :: runs[r].decision in decisions && decisions[runs[r].decision].run == r)
    && (forall d | d in decisions :: decisions[d].run in runs && runs[decisions[d].run].decision == d)
  }

  ghost predicate Settled(runs: map<string, Run>, decisions: map<string, Decision>, d: string) {
    d in decisions && decisions[d].run in runs && runs[decisions[d].run].status.Analyzed?
  }

  /** Claims and unknowns belong to decisions whose run has been analysed. */
  ghost predicate Owned(db: Db) {
    && (forall k | k in db.claims :: Settled(db.runs, db.decisions, db.claims[k].decision))
    && (forall k | k in db.unknowns :: Settled(db.runs, db.decisions, db.unknowns[k].decision))
  }

  ghost predicate CheckOk(v: Verification, claims: map<string, Claim>, hashes: Hashes) {
    && v.claim in claims && claims[v.claim].decision == v.decision
    && v.requiresApproval && v.environment in ["sandbox", "staging"]
    && (v.status.Completed? ==>
          v.approved && v.outcome in ["passed", "failed"] && v.artifact != ""
          && v.artifactHash == hashes.artifact(v.artifact) && v.executedAt.Some?)
    && (!v.status.Completed? ==> v.outcome == "" && v.artifact == "" && v.artifactHash == "")
  }

  ghost predicate ChecksOk(verifications: map<string, Verification>, claims: map<string, Claim>, hashes: Hashes) {
    forall k | k in verifications :: CheckOk(verifications[k], claims, hashes)
  }

  ghost predicate OneCheckEach(verifications: map<string, Verification>) {
    forall j, k | j in verifications && k in verifications && verifications[j].claim == verifications[k].claim :: j == k
  }

  function Checked(c: Claim, v: Verification): Claim {
    if v.outcome == "passed" then AfterPass(c) else AfterFailure(c)
  }

  ghost predicate Completes(verifications: map<string, Verification>, k: string, id: string) {
    k in verifications && verifications[k].claim == id && verifications[k].status.Completed?
  }

  /** The stored claim is the analysed one, overridden only by its completed check. */
  ghost predicate Replays(stored: Claim, original: Claim, verifications: map<string, Verification>, id: string) {
    && (forall k | Completes(verifications, k, id) :: stored == Checked(original, verifications[k]))
    && ((forall k :: !Completes(verifications, k, id)) ==> stored == original)
  }

  ghost predicate ClaimsReplay(claims: map<string, Claim>, analysed: map<string, Claim>, verifications: map<string, Verification>) {
    claims.Keys == analysed.Keys && forall k | k in claims :: Replays(claims[k], analysed[k], verifications, k)
  }

  ghost predicate PassedIn(verifications: map<string, Verification>, d: string) {
    exists k :: k in verifications && verifications[k].decision == d && verifications[k].outcome == "passed"
  }

  /** An unknown is resolved when its analysis said so, or exactly when it is critical and
      some check of its decision passed. */
  ghost predicate UnknownReplays(stored: Unknown, original: Unknown, verifications: map<string, Verification>) {
    stored == original.(resolved := original.resolved || (original.critical && PassedIn(verifications, original.decision)))
  }

  ghost predicate UnknownsReplay(unknowns: map<string, Unknown>, raised: map<string, Unknown>, verifications: map<string, Verification>) {
    unknowns.Keys == raised.Keys && forall k | k in unknowns :: UnknownReplays(unknowns[k], raised[k], verifications)
  }

  ghost predicate NoOpenCritical(unknowns: map<string, Unknown>, d: string) {
    forall k | k in unknowns && unknowns[k].decision == d && unknowns[k].critical :: unknowns[k].resolved
  }

  ghost predicate SortedText(hashes: seq<string>) {
    forall i, j | 0 <= i < j < |hashes| :: !Precedes(hashes[j], hashes[i])
  }

  /** A stored certificate agrees with its decision record, carries its own digest, and
      allows action only behind the approval and the evidence gates. */
  ghost predicate CertificateOk(db: Db, d: string, hashes: Hashes)
    requires d in db.certificates
  {
    var c := db.certificates[d];
    && c.decision == d && d in db.decisions
    && (var r := db.decisions[d];
        && r.run == c.run && r.verdict == Some(c.verdict) && r.actionAllowed == c.actionAllowed
        && r.humanApproved == c.humanApproved && r.conditions == c.conditions && r.evaluatedAt == Some(c.issuedAt))
    && c.algorithm == "SHA-256" && c.digest == Digest(c, hashes)
    && SortedText(c.artifactHashes)
    && (forall x | x in c.claims :: x.id in db.claims && db.claims[x.id].decision == d)
    && (c.actionAllowed ==>
          && c.humanApproved && Policy.Gates(c.claims, [])
          && NoOpenCritical(db.unknowns, d))
  }

  ghost predicate CertificatesOk(db: Db, hashes: Hashes) {
    forall d | d in db.certificates :: CertificateOk(db, d, hashes)
  }

  ghost predicate Counted(db: Db, n: nat) {
    && Numbered(db.runs, "run", n) && Numbered(db.decisions, "dec", n) && Numbered(db.claims, "clm", n)
    && Numbered(db.unknowns, "unk", n) && Numbered(db.verifications, "ver", n)
  }

  /** The parts of the invariant that runs and decisions take part in. */
  ghost predicate Tables(db: Db, n: nat, hashes: Hashes) {
    KeyedById(db) && Counted(db, n) && RunsLinked(db.runs, db.decisions) && Owned(db) && CertificatesOk(db, hashes)
  }

  /** The parts about claims, unknowns and checks. */
  ghost predicate Replayed(w: World, hashes: Hashes) {
    && ChecksOk(w.db.verifications, w.db.claims, hashes) && OneCheckEach(w.db.verifications)
    && ClaimsReplay(w.db.claims, w.analysed, w.db.verifications)
    && UnknownsReplay(w.db.unknowns, w.raised, w.db.verifications)
  }

  ghost predicate Inv(w: World, hashes: Hashes) {
    Tables(w.db, w.drawn, hashes) && Replayed(w, hashes)
  }

  lemma InvParts(w: World, hashes: Hashes)
    requires Inv(w, hashes)
    ensures Tables(w.db, w.drawn, hashes) && Replayed(w, hashes)
    ensures KeyedById(w.db) && Counted(w.db, w.drawn) && RunsLinked(w.db.runs, w.db.decisions) && Owned(w.db)
    ensures CertificatesOk(w.db, hashes)
    ensures Numbered(w.db.claims, "clm", w.drawn) && w.db.claims.Keys == w.analysed.Keys
    ensures Keyed(w.db.claims, ClaimId) && Keyed(w.db.verifications, VerificationId)
  {
  }

  // ---- Fresh IDs

  lemma NumberedGrows<T>(m: map<string, T>, prefix: string, n: nat, more: nat)
    requires Numbered(m, prefix, n) && n <= more
    ensures Numbered(m, prefix, more)
  {
    forall k | k in m ensures IsId(prefix, k, more) {
      assert IsId(prefix, k, n);
    }
  }

  lemma CountedGrows(db: Db, n: nat, more: nat)
    requires Counted(db, n) && n <= more
    ensures Counted(db, more)
  {
    NumberedGrows(db.runs, "run", n, more);
    NumberedGrows(db.decisions, "dec", n, more);
    NumberedGrows(db.claims, "clm", n, more);
    NumberedGrows(db.unknowns, "unk", n, more);
    NumberedGrows(db.verifications, "ver", n, more);
  }

  lemma NextIdIsFresh<T>(m: map<string, T>, prefix: string, n: nat, i: nat)
    requires Numbered(m, prefix, n) && n <= i
    ensures NewId(prefix, i) !in m
  {
    if NewId(prefix, i) in m {
      assert IsId(prefix, NewId(prefix, i), n);
      var k: nat :| k < n && NewId(prefix, i) == NewId(prefix, k);
      NewIdIsInjective(prefix, i, prefix, k);
    }
  }

  /** Inserting a numbered list touches no old key and keeps the table numbered. */
  lemma PutNumbered<T>(m: map<string, T>, items: seq<T>, key: T -> string, prefix: string, n: nat, more: nat)
    requires Numbered(m, prefix, n) && n + |items| <= more
    requires forall i | 0 <= i < |items| :: key(items[i]) == NewId(prefix, n + i)
    ensures Numbered(PutAll(m, items, key), prefix, more)
    ensures forall k | k in m :: k in PutAll(m, items, key) && PutAll(m, items, key)[k] == m[k]
    ensures forall k | k in PutAll(m, items, key) && k !in m :: PutAll(m, items, key)[k] in items
    ensures forall x | x in items :: key(x) !in m && key(x) in PutAll(m, items, key) && PutAll(m, items, key)[key(x)] == x
  {
    hide PutAll, IsId, HasKey, NewId;
    Relabel.NumberedIdsDistinct(items, key, prefix, n);
    forall k | k in PutAll(m, items, key)
      ensures IsId(prefix, k, more) && (k in m ==> PutAll(m, items, key)[k] == m[k])
              && (k !in m ==> PutAll(m, items, key)[k] in items)
    {
      PutNumberedKey(m, items, key, prefix, n, more, k);
    }
    forall k | k in m ensures k in PutAll(m, items, key) { PutAllKey(m, items, key, k); }
    forall x | x in items ensures key(x) !in m && key(x) in PutAll(m, items, key) && PutAll(m, items, key)[key(x)] == x {
      var i :| 0 <= i < |items| && items[i] == x;
      NextIdIsFresh(m, prefix, n, n + i);
      DistinctKeyIsTheItem(m, items, key, i);
    }
  }

  lemma PutNumberedKey<T>(m: map<string, T>, items: seq<T>, key: T -> string, prefix: string, n: nat, more: nat, k: string)
    requires Numbered(m, prefix, n) && n + |items| <= more && k in PutAll(m, items, key)
    requires forall i | 0 <= i < |items| :: key(items[i]) == NewId(prefix, n + i)
    ensures IsId(prefix, k, more)
    ensures k in m ==> PutAll(m, items, key)[k] == m[k]
    ensures k !in m ==> PutAll(m, items, key)[k] in items
  {
    PutAllKey(m, items, key, k);
    if HasKey(items, key, k) {
      var i :| 0 <= i < |items| && key(items[i]) == k;
      NextIdIsFresh(m, prefix, n, n + i);
      assert n + i < more && k == NewId(prefix, n + i);
    } else {
      assert IsId(prefix, k, n);
    }
  }

  // ---- Create and Add

  lemma PutOneNumbered<T>(m: map<string, T>, k: string, x: T, prefix: string, n: nat)
    requires Numbered(m, prefix, n) && k == NewId(prefix, n)
    ensures k !in m && Numbered(m[k := x], prefix, n + 1)
  {
    NextIdIsFresh(m, prefix, n, n);
    NumberedGrows(m, prefix, n, n + 1);
    assert IsId(prefix, k, n + 1);
  }

  lemma CreateKeepsTables(a: Db, run: Run, decision: Decision, n: nat, hashes: Hashes)
    requires Tables(a, n, hashes)
    requires run.id == NewId("run", n) && decision.id == NewId("dec", n) && run.decision == decision.id && decision.run == run.id
    ensures Tables(Store.CreateRun(a, run, decision), n + 1, hashes)
  {
    CountedGrows(a, n, n + 1);
    PutOneNumbered(a.runs, run.id, run, "run", n);
    PutOneNumbered(a.decisions, decision.id, decision, "dec", n);
    CreateKeepsOwners(a, Store.CreateRun(a, run, decision), run, decision);
    CreateKeepsLinks(a, run, decision, hashes);
  }

  lemma CreateKeepsLinks(a: Db, run: Run, decision: Decision, hashes: Hashes)
    requires run.id !in a.runs && decision.id !in a.decisions && run.decision == decision.id && decision.run == run.id
    requires KeyedById(a) && RunsLinked(a.runs, a.decisions) && CertificatesOk(a, hashes)
    ensures var b := Store.CreateRun(a, run, decision);
            KeyedById(b) && RunsLinked(b.runs, b.decisions) && CertificatesOk(b, hashes)
  {
    hide CertificatesOk, RunsLinked;
    NewRunKeepsCertificates(a, run, decision, hashes);
    NewRunIsLinked(a.runs, a.decisions, run, decision);
  }

  lemma NewRunIsLinked(runs: map<string, Run>, decisions: map<string, Decision>, run: Run, decision: Decision)
    requires run.id !in runs && decision.id !in decisions && run.decision == decision.id && decision.run == run.id
    requires RunsLinked(runs, decisions)
    ensures RunsLinked(runs[run.id := run], decisions[decision.id := decision])
  {
  }

  lemma NewRunKeepsCertificates(a: Db, run: Run, decision: Decision, hashes: Hashes)
    requires decision.id !in a.decisions && CertificatesOk(a, hashes)
    ensures CertificatesOk(Store.CreateRun(a, run, decision), hashes)
  {
    var b := Store.CreateRun(a, run, decision);
    forall d | d in b.certificates ensures CertificateOk(b, d, hashes) {
      assert CertificateOk(a, d, hashes);
    }
  }

  lemma CreateKeepsOwners(a: Db, b: Db, run: Run, decision: Decision)
    requires b == Store.CreateRun(a, run, decision) && run.id !in a.runs && decision.id !in a.decisions
    requires Owned(a)
    ensures Owned(b)
  {
    forall d | Settled(a.runs, a.decisions, d) ensures Settled(b.runs, b.decisions, d) {
    }
  }

  lemma CreatingKeepsTables(a: Db, input: RunInput, n: nat, hashes: Hashes, now: int)
    requires Tables(a, n, hashes)
    ensures var db := Service.CreateRun(a, input, n, now).0;
            db == a.(runs := db.runs, decisions := db.decisions) && Tables(db, n + 1, hashes)
  {
    var (run, decision) := NewRun(input, n, now);
    CreateKeepsTables(a, run, decision, n, hashes);
    NextTables(a, n, hashes);
  }

  /** Changing runs without touching IDs, decisions or status. */
  lemma RunChangeKeepsTables(a: Db, b: Db, n: nat, hashes: Hashes)
    requires b == a.(runs := b.runs) && b.runs.Keys == a.runs.Keys
    requires forall r | r in a.runs ::
               b.runs[r].id == a.runs[r].id && b.runs[r].decision == a.runs[r].decision && b.runs[r].status == a.runs[r].status
    requires Tables(a, n, hashes)
    ensures Tables(b, n, hashes)
  {
    hide CertificatesOk, Numbered, Owned, RunsLinked;
    SameKeysNumbered(a.runs, b.runs, "run", n);
    RunChangeKeepsOwners(a, b);
    RunsKeepCertificates(a, b, hashes);
  }

  lemma RunChangeKeepsOwners(a: Db, b: Db)
    requires b == a.(runs := b.runs) && b.runs.Keys == a.runs.Keys
    requires forall r | r in a.runs :: b.runs[r].decision == a.runs[r].decision && b.runs[r].status == a.runs[r].status
    requires RunsLinked(a.runs, a.decisions) && Owned(a)
    ensures RunsLinked(b.runs, b.decisions) && Owned(b)
  {
    forall d | Settled(a.runs, a.decisions, d) ensures Settled(b.runs, b.decisions, d) {
    }
  }

  lemma RunsKeepCertificates(a: Db, b: Db, hashes: Hashes)
    requires CertificatesOk(a, hashes) && b == a.(runs := b.runs)
    ensures CertificatesOk(b, hashes)
  {
    forall d | d in b.certificates ensures CertificateOk(b, d, hashes) {
      assert CertificateOk(a, d, hashes);
    }
  }

  lemma StoredEventChangesOneRun(a: Db, run: string, e: Event)
    requires run in a.runs && FindExternal(a.runs[run].events, e.externalId).None?
    ensures Store.AddEvent(a, run, e).0
            == a.(runs := a.runs[run := a.runs[run].(events := a.runs[run].events + [Store.Numbered(a.runs[run].events, e)])])
  {
  }

  lemma AddedKeepsTables(a: Db, run: string, e: Event, n: nat, hashes: Hashes)
    requires Tables(a, n, hashes)
    ensures var b := Store.AddEvent(a, run, e).0; b == a.(runs := b.runs) && Tables(b, n, hashes)
  {
    hide Tables, FindExternal, Store.Numbered;
    if run in a.runs && FindExternal(a.runs[run].events, e.externalId).None? {
      StoredEventChangesOneRun(a, run, e);
      var changed := a.runs[run].(events := a.runs[run].events + [Store.Numbered(a.runs[run].events, e)]);
      RunChangeKeepsTables(a, a.(runs := a.runs[run := changed]), n, hashes);
    }
  }

  lemma ServiceAddsAtMostOne(a: Db, run: string, event: EventInput, n: nat, now: int)
    ensures Service.AddEvent(a, run, event, n, now).0
            in {a, Store.AddEvent(a, run, NewEvent(event, n, now)).0}
  {
  }

  lemma AddKeepsTables(a: Db, run: string, event: EventInput, n: nat, hashes: Hashes, now: int)
    requires Tables(a, n, hashes)
    ensures var db := Service.AddEvent(a, run, event, n, now).0;
            db == a.(runs := db.runs) && Tables(db, n + 1, hashes)
  {
    ServiceAddsAtMostOne(a, run, event, n, now);
    AddedKeepsTables(a, run, NewEvent(event, n, now), n, hashes);
    NextTables(a, n, hashes);
    NextTables(Store.AddEvent(a, run, NewEvent(event, n, now)).0, n, hashes);
  }

  lemma NextTables(a: Db, n: nat, hashes: Hashes)
    requires Tables(a, n, hashes)
    ensures Tables(a, n + 1, hashes)
  {
    CountedGrows(a, n, n + 1);
  }

  // ---- Analyse

  /** What a relabelled analysis looks like to the store. */
  ghost predicate Relabels(b: Analysis, n: nat, d: string) {
    && (forall i | 0 <= i < |b.claims| :: b.claims[i].id == NewId("clm", n + i) && b.claims[i].decision == d)
    && (forall i | 0 <= i < |b.unknowns| :: b.unknowns[i].id == NewId("unk", n + i) && b.unknowns[i].decision == d)
  }

  lemma RelabelledRelabels(p: Analysis, n: nat, now: int, d: string)
    ensures var b := Relabel.Relabelled(p, n, now, d);
            Relabels(b, n, d) && |b.claims| <= Relabel.Drawn(p) && |b.unknowns| <= Relabel.Drawn(p)
  {
  }

  /** The saved claims and unknowns are the old ones and the new ones, under new keys. */
  lemma SavedTables(a: Db, run: string, b: Analysis, n: nat)
    requires Counted(a, n) && run in a.runs && Relabels(b, n, a.runs[run].decision)
    ensures var db := SaveAnalysis(a, run, b);
            && Adds(a.claims, db.claims, b.claims, ClaimId) && Adds(a.unknowns, db.unknowns, b.unknowns, UnknownId)
  {
    PutNumbered(a.claims, b.claims, ClaimId, "clm", n, n + |b.claims|);
    PutNumbered(a.unknowns, b.unknowns, UnknownId, "unk", n, n + |b.unknowns|);
  }

  ghost predicate Adds<T>(before: map<string, T>, after: map<string, T>, items: seq<T>, key: T -> string) {
    && (forall k | k in before :: k in after && after[k] == before[k])
    && (forall k | k in after && k !in before :: after[k] in items)
    && (forall x | x in items :: key(x) !in before && key(x) in after && after[key(x)] == x)
  }

  lemma AnalysisKeepsCounts(a: Db, run: string, b: Analysis, n: nat, more: nat)
    requires Counted(a, n) && RunsLinked(a.runs, a.decisions) && KeyedById(a) && run in a.runs
    requires Relabels(b, n, a.runs[run].decision) && n + |b.claims| <= more && n + |b.unknowns| <= more
    ensures Counted(SaveAnalysis(a, run, b), more)
  {
    CountedGrows(a, n, more);
    PutNumbered(a.claims, b.claims, ClaimId, "clm", n, more);
    PutNumbered(a.unknowns, b.unknowns, UnknownId, "unk", n, more);
    SavingKeepsKeys(a, run, b);
    SameKeysNumbered(a.runs, SaveAnalysis(a, run, b).runs, "run", more);
    SameKeysNumbered(a.decisions, SaveAnalysis(a, run, b).decisions, "dec", more);
  }

  lemma SavingKeepsKeys(a: Db, run: string, b: Analysis)
    requires RunsLinked(a.runs, a.decisions) && KeyedById(a) && run in a.runs
    ensures var db := SaveAnalysis(a, run, b);
            db.runs.Keys == a.runs.Keys && db.decisions.Keys == a.decisions.Keys && db.verifications == a.verifications
  {
  }

  lemma SameKeysNumbered<T>(a: map<string, T>, b: map<string, T>, prefix: string, n: nat)
    requires Numbered(a, prefix, n) && a.Keys == b.Keys
    ensures Numbered(b, prefix, n)
  {
    forall k | k in b ensures IsId(prefix, k, n) {
      assert k in a;
    }
  }

  lemma AnalysisKeepsOwners(a: Db, run: string, b: Analysis)
    requires KeyedById(a) && RunsLinked(a.runs, a.decisions) && Owned(a) && run in a.runs
    requires forall x | x in b.claims :: x.decision == a.runs[run].decision
    requires forall x | x in b.unknowns :: x.decision == a.runs[run].decision
    requires var db := SaveAnalysis(a, run, b);
             Adds(a.claims, db.claims, b.claims, ClaimId) && Adds(a.unknowns, db.unknowns, b.unknowns, UnknownId)
    ensures var db := SaveAnalysis(a, run, b);
            RunsLinked(db.runs, db.decisions) && Owned(db)
  {
    var d := a.runs[run].decision;
    var db := SaveAnalysis(a, run, b);
    forall x | Settled(a.runs, a.decisions, x) || x == d ensures Settled(db.runs, db.decisions, x) {
    }
  }

  /** An unanalysed run's decision owns no claim, no unknown, no check, and its
      certificate, if it has one, allows nothing. */
  lemma UnanalysedOwnsNothing(w: World, run: string, hashes: Hashes)
    requires Inv(w, hashes) && run in w.db.runs && w.db.runs[run].status.Ingesting?
    ensures var d := w.db.runs[run].decision;
            && (forall k | k in w.db.claims :: w.db.claims[k].decision != d)
            && (forall k | k in w.db.unknowns :: w.db.unknowns[k].decision != d)
            && (forall k | k in w.db.verifications :: w.db.verifications[k].decision != d)
            && (d in w.db.certificates ==> !w.db.certificates[d].actionAllowed)
  {
    hide Counted, OneCheckEach;
    var d := w.db.runs[run].decision;
    assert !Settled(w.db.runs, w.db.decisions, d);
    if d in w.db.certificates {
      var c := w.db.certificates[d];
      assert CertificateOk(w.db, d, hashes);
      assert forall x :: x !in c.claims;
      NoMembersMeansEmpty(c.claims);
      assert !Policy.AnyCritical(c.claims);
    }
  }

  lemma AnalysisKeepsCertificate(a: Db, run: string, b: Analysis, d: string, hashes: Hashes)
    requires KeyedById(a) && RunsLinked(a.runs, a.decisions) && run in a.runs && d in a.certificates && CertificateOk(a, d, hashes)
    requires d == a.runs[run].decision ==> !a.certificates[d].actionAllowed
    requires forall x | x in b.unknowns :: x.decision == a.runs[run].decision
    requires var db := SaveAnalysis(a, run, b);
             Adds(a.claims, db.claims, b.claims, ClaimId) && Adds(a.unknowns, db.unknowns, b.unknowns, UnknownId)
    ensures d in SaveAnalysis(a, run, b).certificates && CertificateOk(SaveAnalysis(a, run, b), d, hashes)
  {
  }

  lemma AnalysisKeepsCertificates(a: Db, run: string, b: Analysis, hashes: Hashes)
    requires KeyedById(a) && RunsLinked(a.runs, a.decisions) && CertificatesOk(a, hashes) && run in a.runs
    requires var d := a.runs[run].decision; d in a.certificates ==> !a.certificates[d].actionAllowed
    requires forall x | x in b.unknowns :: x.decision == a.runs[run].decision
    requires var db := SaveAnalysis(a, run, b);
             Adds(a.claims, db.claims, b.claims, ClaimId) && Adds(a.unknowns, db.unknowns, b.unknowns, UnknownId)
    ensures CertificatesOk(SaveAnalysis(a, run, b), hashes)
  {
    hide CertificateOk, Adds, RunsLinked, KeyedById;
    SavingKeepsOtherTables(a, run, b);
    var db := SaveAnalysis(a, run, b);
    forall d | d in db.certificates ensures CertificateOk(db, d, hashes) {
      AnalysisKeepsCertificate(a, run, b, d, hashes);
    }
  }

  lemma AnalysisKeepsReplay(w: World, run: string, b: Analysis, n: nat, hashes: Hashes)
    requires Replayed(w, hashes) && run in w.db.runs
    requires Relabels(b, n, w.db.runs[run].decision) && Counted(w.db, n)
    requires forall k | k in w.db.verifications :: w.db.verifications[k].decision != w.db.runs[run].decision
    ensures Replayed(World(SaveAnalysis(w.db, run, b), w.drawn, PutAll(w.analysed, b.claims, ClaimId),
                           PutAll(w.raised, b.unknowns, UnknownId)), hashes)
  {
    var db := SaveAnalysis(w.db, run, b);
    var analysed, raised := PutAll(w.analysed, b.claims, ClaimId), PutAll(w.raised, b.unknowns, UnknownId);
    SavedTables(w.db, run, b, n);
    HistoryAdds(w.db.claims, w.analysed, b.claims, ClaimId, "clm", n);
    HistoryAdds(w.db.unknowns, w.raised, b.unknowns, UnknownId, "unk", n);
    SameKeysAfterPut(w.db.claims, w.analysed, b.claims, ClaimId);
    SameKeysAfterPut(w.db.unknowns, w.raised, b.unknowns, UnknownId);
    NewClaimsReplay(w.db.claims, db.claims, w.analysed, analysed, w.db.verifications, hashes);
    NewUnknownsReplay(w.db.unknowns, db.unknowns, w.raised, raised, w.db.verifications, w.db.runs[run].decision);
  }

  lemma HistoryAdds<T>(m: map<string, T>, history: map<string, T>, items: seq<T>, key: T -> string, prefix: string, n: nat)
    requires Numbered(m, prefix, n) && m.Keys == history.Keys
    requires forall i | 0 <= i < |items| :: key(items[i]) == NewId(prefix, n + i)
    ensures forall k | k in history :: k in PutAll(history, items, key) && PutAll(history, items, key)[k] == history[k]
    ensures forall k | k in PutAll(m, items, key) && k !in m ::
              k in PutAll(history, items, key) && PutAll(m, items, key)[k] == PutAll(history, items, key)[k]
              && PutAll(m, items, key)[k] in items
  {
    SameKeysNumbered(m, history, prefix, n);
    PutNumbered(m, items, key, prefix, n, n + |items|);
    PutNumbered(history, items, key, prefix, n, n + |items|);
    SameKeysAfterPut(m, history, items, key);
    forall k | k in PutAll(m, items, key) && k !in m
      ensures k in PutAll(history, items, key) && PutAll(m, items, key)[k] == PutAll(history, items, key)[k]
    {
      PutAllKey(m, items, key, k);
      PutAllKey(history, items, key, k);
    }
  }

  lemma NewUnknownsReplay(before: map<string, Unknown>, after: map<string, Unknown>, was: map<string, Unknown>,
                          raised: map<string, Unknown>, checks: map<string, Verification>, d: string)
    requires UnknownsReplay(before, was, checks) && after.Keys == raised.Keys
    requires forall k | k in before :: k in after && after[k] == before[k] && k in raised && raised[k] == was[k]
    requires forall k | k in after && k !in before :: after[k] == raised[k] && after[k].decision == d
    requires forall k | k in checks :: checks[k].decision != d
    ensures UnknownsReplay(after, raised, checks)
  {
    assert !PassedIn(checks, d);
    forall k | k in after ensures UnknownReplays(after[k], raised[k], checks) {
      if k in before {
        assert UnknownReplays(before[k], was[k], checks);
      }
    }
  }

  lemma SameKeysAfterPut<T>(a: map<string, T>, b: map<string, T>, items: seq<T>, key: T -> string)
    requires a.Keys == b.Keys
    ensures PutAll(a, items, key).Keys == PutAll(b, items, key).Keys
  {
    forall k ensures k in PutAll(a, items, key) <==> k in PutAll(b, items, key) {
      PutAllKey(a, items, key, k);
      PutAllKey(b, items, key, k);
    }
  }

  lemma NewClaimsReplay(before: map<string, Claim>, after: map<string, Claim>, was: map<string, Claim>, analysed: map<string, Claim>,
                        checks: map<string, Verification>, hashes: Hashes)
    requires ClaimsReplay(before, was, checks) && ChecksOk(checks, before, hashes)
    requires after.Keys == analysed.Keys
    requires forall k | k in before :: k in after && after[k] == before[k] && k in analysed && analysed[k] == was[k]
    requires forall k | k in after && k !in before :: after[k] == analysed[k]
    ensures ClaimsReplay(after, analysed, checks) && ChecksOk(checks, after, hashes)
  {
    forall k | k in after ensures Replays(after[k], analysed[k], checks, k) {
      if k in before {
        assert Replays(before[k], was[k], checks, k);
      } else {
        assert forall j | j in checks :: CheckOk(checks[j], before, hashes) && checks[j].claim != k;
      }
    }
  }

  /** Saving a relabelled analysis keeps the whole invariant. */
  lemma AnalysisKeepsInv(w: World, run: string, p: Analysis, now: int, hashes: Hashes)
    requires Inv(w, hashes) && run in w.db.runs && w.db.runs[run].status.Ingesting?
    ensures Inv(AfterAnalysis(w, run, p, now), hashes)
  {
    hide *;
    InvParts(w, hashes);
    var d := w.db.runs[run].decision;
    var b := Relabel.Relabelled(p, w.drawn, now, d);
    var more := w.drawn + Relabel.Drawn(p);
    RelabelledRelabels(p, w.drawn, now, d);
    UnanalysedOwnsNothing(w, run, hashes);
    SavedKeepsInv(w, run, b, more, hashes);
    AnalysisIsSaved(w, run, p, now);
  }

  lemma AnalysisIsSaved(w: World, run: string, p: Analysis, now: int)
    requires KeyedById(w.db) && RunsLinked(w.db.runs, w.db.decisions)
    requires run in w.db.runs && w.db.runs[run].status.Ingesting?
    ensures var b := Relabel.Relabelled(p, w.drawn, now, w.db.runs[run].decision);
            AfterAnalysis(w, run, p, now)
            == World(SaveAnalysis(w.db, run, b), w.drawn + Relabel.Drawn(p), PutAll(w.analysed, b.claims, ClaimId),
                     PutAll(w.raised, b.unknowns, UnknownId))
  {
    hide SaveAnalysis, PutAll, Relabel.Relabelled, Relabel.Drawn, Project;
    assert DecisionOf(w.db, w.db.runs[run].decision).id == w.db.runs[run].decision;
  }

  lemma SavedKeepsInv(w: World, run: string, b: Analysis, more: nat, hashes: Hashes)
    requires Inv(w, hashes) && run in w.db.runs && w.db.runs[run].status.Ingesting?
    requires Relabels(b, w.drawn, w.db.runs[run].decision)
    requires w.drawn + |b.claims| <= more && w.drawn + |b.unknowns| <= more
    requires var d := w.db.runs[run].decision;
             && (d in w.db.certificates ==> !w.db.certificates[d].actionAllowed)
             && (forall k | k in w.db.verifications :: w.db.verifications[k].decision != d)
    ensures Inv(World(SaveAnalysis(w.db, run, b), more, PutAll(w.analysed, b.claims, ClaimId),
                      PutAll(w.raised, b.unknowns, UnknownId)), hashes)
  {
    SavedTables(w.db, run, b, w.drawn);
    AnalysisKeepsCounts(w.db, run, b, w.drawn, more);
    AnalysisKeepsOwners(w.db, run, b);
    AnalysisKeepsCertificates(w.db, run, b, hashes);
    AnalysisKeepsReplay(w, run, b, w.drawn, hashes);
    SavingKeepsIds(w.db, run, b);
  }

  lemma SavingKeepsIds(a: Db, run: string, b: Analysis)
    requires KeyedById(a) && run in a.runs
    ensures KeyedById(SaveAnalysis(a, run, b))
  {
    PutKeepsKeyed(a.claims, b.claims, ClaimId);
    PutKeepsKeyed(a.evidence, b.evidence, EvidenceId);
    PutKeepsKeyed(a.relations, b.relations, RelationId);
    PutKeepsKeyed(a.assumptions, b.assumptions, AssumptionId);
    PutKeepsKeyed(a.unknowns, b.unknowns, UnknownId);
  }

  lemma {:induction false} PutKeepsKeyed<T>(m: map<string, T>, items: seq<T>, key: T -> string)
    requires Keyed(m, key)
    ensures Keyed(PutAll(m, items, key), key)
  {
    if items != [] {
      PutKeepsKeyed(m, items[..|items| - 1], key);
    }
  }

  // ---- Plan

  ghost predicate PlannedFor(out: seq<Verification>, d: string, n: nat, claims: map<string, Claim>, hashes: Hashes) {
    && (forall i | 0 <= i < |out| :: out[i].id == NewId("ver", n + i))
    && (forall i | 0 <= i < |out| :: out[i].status.Planned? && CheckOk(out[i], claims, hashes))
    && (forall i | 0 <= i < |out| :: out[i].decision == d)
    && (forall i, j | 0 <= i < j < |out| :: out[i].claim != out[j].claim)
  }

  lemma {:induction false} ChecksAreNew(claims: seq<Claim>, d: string, spec: Claim -> (string, string), n: nat, now: int, hashes: Hashes,
                                        stored: map<string, Claim>)
    requires DistinctKeys(claims, ClaimId)
    requires forall c | c in claims :: c.id in stored && stored[c.id].decision == d
    ensures |Checks(claims, d, spec, n, now)| <= |claims|
    ensures PlannedFor(Checks(claims, d, spec, n, now), d, n, stored, hashes)
    ensures forall i | 0 <= i < |Checks(claims, d, spec, n, now)| :: HasKey(claims, ClaimId, Checks(claims, d, spec, n, now)[i].claim)
  {
    hide PlannedFor, HasKey, NeedsCheck, Check;
    if claims == [] {
      NothingPlanned(d, n, stored, hashes);
    } else {
      var front, last := claims[..|claims| - 1], claims[|claims| - 1];
      ChecksAreNew(front, d, spec, n, now, hashes, stored);
      OneMoreDistinct(front, last, claims);
      var checks := Checks(front, d, spec, n, now);
      if NeedsCheck(last) {
        OneMorePlanned(checks, front, last, d, spec, n, now, hashes, stored);
      } else {
        assert checks + [] == checks;
      }
    }
  }

  lemma NothingPlanned(d: string, n: nat, stored: map<string, Claim>, hashes: Hashes)
    ensures PlannedFor([], d, n, stored, hashes)
  {
  }

  lemma OneMoreDistinct(front: seq<Claim>, last: Claim, claims: seq<Claim>)
    requires claims != [] && front == claims[..|claims| - 1] && last == claims[|claims| - 1] && DistinctKeys(claims, ClaimId)
    ensures DistinctKeys(front, ClaimId) && !HasKey(front, ClaimId, last.id)
    ensures forall k :: HasKey(claims, ClaimId, k) <==> HasKey(front, ClaimId, k) || last.id == k
  {
    forall k ensures HasKey(claims, ClaimId, k) <==> HasKey(front, ClaimId, k) || last.id == k {
      HasKeyOfOneMore(front, last, ClaimId, k);
      assert claims == front + [last];
    }
  }

  lemma OneMorePlanned(checks: seq<Verification>, front: seq<Claim>, last: Claim, d: string, spec: Claim -> (string, string), n: nat,
                       now: int, hashes: Hashes, stored: map<string, Claim>)
    requires PlannedFor(checks, d, n, stored, hashes) && last.id in stored && stored[last.id].decision == d
    requires forall i | 0 <= i < |checks| :: HasKey(front, ClaimId, checks[i].claim)
    requires !HasKey(front, ClaimId, last.id)
    ensures PlannedFor(checks + [Check(last, d, spec, n + |checks|, now)], d, n, stored, hashes)
    ensures Check(last, d, spec, n + |checks|, now).claim == last.id
  {
    hide HasKey;
    var check := Check(last, d, spec, n + |checks|, now);
    forall i | 0 <= i < |checks| ensures checks[i].claim != check.claim {
      assert HasKey(front, ClaimId, checks[i].claim);
    }
  }

  /** Planned checks of a decision that had none keep the replay. */
  lemma NewChecksKeepReplay(w: World, d: string, out: seq<Verification>, n: nat, hashes: Hashes)
    requires Replayed(w, hashes) && Numbered(w.db.verifications, "ver", n)
    requires forall k | k in w.db.verifications :: w.db.verifications[k].decision != d
    requires PlannedFor(out, d, n, w.db.claims, hashes)
    ensures Replayed(w.(db := SaveVerifications(w.db, out)), hashes)
  {
    var before, after := w.db.verifications, SaveVerifications(w.db, out).verifications;
    NewChecksKeyed(before, out, n);
    NewChecksAreOk(before, after, out, w.db.claims, hashes);
    NewChecksAreOneEach(before, after, out, w.db.claims, d, hashes);
    PlannedChecksReplayNothing(w.db.claims, w.analysed, before, after);
    PlannedChecksResolveNothing(w.db.unknowns, w.raised, before, after);
  }

  lemma NewChecksAreOk(before: map<string, Verification>, after: map<string, Verification>, out: seq<Verification>,
                       claims: map<string, Claim>, hashes: Hashes)
    requires ChecksOk(before, claims, hashes)
    requires forall k | k in before :: k in after && after[k] == before[k]
    requires forall k | k in after && k !in before :: after[k] in out
    requires forall i | 0 <= i < |out| :: out[i].status.Planned? && CheckOk(out[i], claims, hashes)
    ensures ChecksOk(after, claims, hashes) && OnlyPlannedAdded(before, after)
  {
  }

  lemma NewChecksKeyed(before: map<string, Verification>, out: seq<Verification>, n: nat)
    requires Numbered(before, "ver", n) && forall i | 0 <= i < |out| :: out[i].id == NewId("ver", n + i)
    ensures var after := PutAll(before, out, VerificationId);
            && (forall k | k in before :: k in after && after[k] == before[k])
            && (forall k | k in after && k !in before :: after[k] in out && after[k].id == k)
  {
    var after := PutAll(before, out, VerificationId);
    PutNumbered(before, out, VerificationId, "ver", n, n + |out|);
    forall k | k in after && k !in before ensures after[k] in out && after[k].id == k {
      PutAllKey(before, out, VerificationId, k);
    }
  }

  ghost predicate OnlyPlannedAdded(before: map<string, Verification>, after: map<string, Verification>) {
    && (forall k | k in before :: k in after && after[k] == before[k])
    && (forall k | k in after && k !in before :: after[k].status.Planned? && after[k].outcome == "")
  }

  lemma PlannedChecksReplayNothing(claims: map<string, Claim>, analysed: map<string, Claim>,
                                   before: map<string, Verification>, after: map<string, Verification>)
    requires ClaimsReplay(claims, analysed, before) && OnlyPlannedAdded(before, after)
    ensures ClaimsReplay(claims, analysed, after)
  {
    forall k | k in claims ensures Replays(claims[k], analysed[k], after, k) {
      assert Replays(claims[k], analysed[k], before, k);
      assert forall j :: Completes(after, j, k) <==> Completes(before, j, k);
    }
  }

  lemma PlannedChecksResolveNothing(unknowns: map<string, Unknown>, raised: map<string, Unknown>,
                                    before: map<string, Verification>, after: map<string, Verification>)
    requires UnknownsReplay(unknowns, raised, before) && OnlyPlannedAdded(before, after)
    ensures UnknownsReplay(unknowns, raised, after)
  {
    forall x ensures PassedIn(after, x) <==> PassedIn(before, x) {
      if k :| k in before && before[k].decision == x && before[k].outcome == "passed" {
        assert after[k] == before[k];
      }
    }
    forall k | k in unknowns ensures UnknownReplays(unknowns[k], raised[k], after) {
      assert UnknownReplays(unknowns[k], raised[k], before);
    }
  }

  lemma NewChecksAreOneEach(before: map<string, Verification>, after: map<string, Verification>, out: seq<Verification>,
                            claims: map<string, Claim>, d: string, hashes: Hashes)
    requires OneCheckEach(before) && ChecksOk(before, claims, hashes)
    requires forall k | k in before :: k in after && after[k] == before[k] && before[k].decision != d
    requires forall k | k in after && k !in before :: after[k] in out && after[k].id == k
    requires forall i | 0 <= i < |out| :: out[i].decision == d && out[i].claim in claims && claims[out[i].claim].decision == d
    requires forall i, j | 0 <= i < j < |out| :: out[i].claim != out[j].claim
    ensures OneCheckEach(after)
  {
    assert forall j | j in before :: CheckOk(before[j], claims, hashes) && claims[before[j].claim].decision != d;
    forall j, k | j in after && k in after && after[j].claim == after[k].claim ensures j == k {
      if j !in before && k !in before {
        var x :| 0 <= x < |out| && out[x] == after[j];
        var y :| 0 <= y < |out| && out[y] == after[k];
        assert x == y;
      }
    }
  }

  /** The graph the service reads for a decision. */
  lemma GraphOfDecision(db: Db, d: string)
    requires KeyedById(db) && RunsLinked(db.runs, db.decisions) && d in db.decisions
    ensures var g := Project(db, RunOf(db, db.decisions[d].run));
            && g.run == db.runs[db.decisions[d].run] && g.decision == db.decisions[d]
            && g.claims == ClaimsOf(db, d) && g.unknowns == UnknownsOf(db, d) && g.verifications == VerificationsOf(db, d)
            && g.evidence == EvidenceOf(db, db.decisions[d].run)
  {
  }

  lemma ClaimsOfDecision(db: Db, d: string)
    requires KeyedById(db)
    ensures forall c :: c in ClaimsOf(db, d) <==> c.id in db.claims && db.claims[c.id] == c && c.decision == d
    ensures DistinctKeys(ClaimsOf(db, d), ClaimId)
  {
    var listed := ClaimsOf(db, d);
    ListingHolds(db.claims, (c: Claim) => c.decision == d, ClaimId);
    forall i, j | 0 <= i < j < |listed| ensures ClaimId(listed[i]) != ClaimId(listed[j]) {
      PrecedesIsLinear(ClaimId(listed[i]), ClaimId(listed[j]));
    }
  }

  lemma NoChecksListed(db: Db, d: string)
    requires KeyedById(db) && VerificationsOf(db, d) == []
    ensures forall k | k in db.verifications :: db.verifications[k].decision != d
  {
    ListingHolds(db.verifications, (v: Verification) => v.decision == d, VerificationId);
    forall k | k in db.verifications ensures db.verifications[k].decision != d {
      assert VerificationId(db.verifications[k]) == k;
      assert db.verifications[k] !in VerificationsOf(db, d);
    }
  }

  lemma TablesGrow(a: Db, n: nat, more: nat, hashes: Hashes)
    requires Tables(a, n, hashes) && n <= more
    ensures Tables(a, more, hashes)
  {
    CountedGrows(a, n, more);
  }

  lemma SavedChecksKeepTables(a: Db, out: seq<Verification>, n: nat, more: nat, hashes: Hashes)
    requires Tables(a, n, hashes) && n + |out| <= more
    requires forall i | 0 <= i < |out| :: out[i].id == NewId("ver", n + i)
    ensures Tables(SaveVerifications(a, out), more, hashes)
  {
    TablesGrow(a, n, more, hashes);
    PutNumbered(a.verifications, out, VerificationId, "ver", n, more);
    PutKeepsKeyed(a.verifications, out, VerificationId);
    var b := SaveVerifications(a, out);
    forall d | d in b.certificates ensures CertificateOk(b, d, hashes) {
      assert CertificateOk(a, d, hashes);
    }
  }

  lemma PlanResult(db: Db, d: string, spec: Claim -> (string, string), n: nat, now: int)
    requires KeyedById(db) && RunsLinked(db.runs, db.decisions)
    ensures var out := Checks(ClaimsOf(db, d), d, spec, n, now);
            Service.Plan(db, d, spec, n, now).0
            == if d in db.decisions && VerificationsOf(db, d) == [] && out != [] then SaveVerifications(db, out) else db
  {
    if d in db.decisions {
      GraphOfDecision(db, d);
    }
  }

  lemma PlannedKeepsInv(w: World, d: string, out: seq<Verification>, more: nat, hashes: Hashes)
    requires Inv(w, hashes) && w.drawn + |out| <= more
    requires forall k | k in w.db.verifications :: w.db.verifications[k].decision != d
    requires PlannedFor(out, d, w.drawn, w.db.claims, hashes)
    ensures Inv(World(SaveVerifications(w.db, out), more, w.analysed, w.raised), hashes)
  {
    SavedChecksKeepTables(w.db, out, w.drawn, more, hashes);
    NewChecksKeepReplay(w, d, out, w.drawn, hashes);
  }

  lemma PlanKeepsInv(w: World, d: string, spec: Claim -> (string, string), now: int, hashes: Hashes)
    requires Inv(w, hashes)
    ensures Inv(World(Service.Plan(w.db, d, spec, w.drawn, now).0, w.drawn + |ClaimsOf(w.db, d)|, w.analysed, w.raised), hashes)
  {
    PlanResult(w.db, d, spec, w.drawn, now);
    TablesGrow(w.db, w.drawn, w.drawn + |ClaimsOf(w.db, d)|, hashes);
    if VerificationsOf(w.db, d) == [] {
      ClaimsOfDecision(w.db, d);
      NoChecksListed(w.db, d);
      ChecksAreNew(ClaimsOf(w.db, d), d, spec, w.drawn, now, hashes, w.db.claims);
      PlannedKeepsInv(w, d, Checks(ClaimsOf(w.db, d), d, spec, w.drawn, now), w.drawn + |ClaimsOf(w.db, d)|, hashes);
    }
  }

  // ---- Execute

  /** A stored check moves on without completing. */
  ghost predicate Moves(before: map<string, Verification>, v: Verification) {
    && v.id in before && !before[v.id].status.Completed? && !v.status.Completed?
    && v == before[v.id].(status := v.status, approved := v.approved, approvedBy := v.approvedBy)
  }

  lemma StartedUpdate(db: Db, v: Verification, hashes: Hashes)
    requires ChecksOk(db.verifications, db.claims, hashes) && Moves(db.verifications, v)
    ensures UpdateVerification(db, v) == db.(verifications := db.verifications[v.id := v])
    ensures CheckOk(v, db.claims, hashes) && v.outcome == "" && db.verifications[v.id].outcome == ""
  {
    assert CheckOk(db.verifications[v.id], db.claims, hashes);
  }

  lemma StartedKeepsReplay(w: World, v: Verification, hashes: Hashes)
    requires Replayed(w, hashes) && Moves(w.db.verifications, v)
    ensures Replayed(w.(db := w.db.(verifications := w.db.verifications[v.id := v])), hashes)
  {
    hide CheckOk, ClaimsReplay, UnknownsReplay, UpdateVerification;
    StartedUpdate(w.db, v, hashes);
    MovedCheckReplays(w.db.claims, w.analysed, w.db.verifications, v);
    MovedCheckResolvesNothing(w.db.unknowns, w.raised, w.db.verifications, v);
  }

  lemma StartedKeepsTables(a: Db, v: Verification, n: nat, hashes: Hashes)
    requires Tables(a, n, hashes) && v.id in a.verifications
    ensures Tables(a.(verifications := a.verifications[v.id := v]), n, hashes)
  {
    hide Numbered, CertificatesOk;
    SameKeysNumbered(a.verifications, a.verifications[v.id := v], "ver", n);
    CheckChangeKeepsTables(a, a.verifications[v.id := v], hashes);
  }

  lemma StartedKeepsInv(w: World, v: Verification, hashes: Hashes)
    requires Inv(w, hashes) && Moves(w.db.verifications, v)
    ensures Inv(w.(db := UpdateVerification(w.db, v)), hashes)
  {
    StartedUpdate(w.db, v, hashes);
    StartedKeepsReplay(w, v, hashes);
    StartedKeepsTables(w.db, v, w.drawn, hashes);
  }

  lemma CheckChangeKeepsTables(a: Db, checks: map<string, Verification>, hashes: Hashes)
    requires KeyedById(a) && CertificatesOk(a, hashes) && Keyed(checks, VerificationId)
    ensures KeyedById(a.(verifications := checks)) && CertificatesOk(a.(verifications := checks), hashes)
  {
    forall d | d in a.certificates ensures CertificateOk(a.(verifications := checks), d, hashes) {
      assert CertificateOk(a, d, hashes);
    }
  }

  lemma MovedCheckReplays(claims: map<string, Claim>, analysed: map<string, Claim>, before: map<string, Verification>, v: Verification)
    requires ClaimsReplay(claims, analysed, before) && v.id in before
    requires !before[v.id].status.Completed? && !v.status.Completed? && v.claim == before[v.id].claim
    ensures ClaimsReplay(claims, analysed, before[v.id := v])
  {
    var after := before[v.id := v];
    forall k | k in claims ensures Replays(claims[k], analysed[k], after, k) {
      assert Replays(claims[k], analysed[k], before, k);
      assert forall j :: Completes(after, j, k) <==> Completes(before, j, k);
    }
  }

  lemma MovedCheckResolvesNothing(unknowns: map<string, Unknown>, raised: map<string, Unknown>, before: map<string, Verification>,
                                  v: Verification)
    requires UnknownsReplay(unknowns, raised, before) && v.id in before
    requires before[v.id].outcome != "passed" && v.outcome != "passed"
    ensures UnknownsReplay(unknowns, raised, before[v.id := v])
  {
    var after := before[v.id := v];
    forall x ensures PassedIn(after, x) <==> PassedIn(before, x) {
      if k :| k in before && before[k].decision == x && before[k].outcome == "passed" {
        assert after[k] == before[k];
      }
    }
    forall k | k in unknowns ensures UnknownReplays(unknowns[k], raised[k], after) {
      assert UnknownReplays(unknowns[k], raised[k], before);
    }
  }

  lemma PassedCheckResolves(unknowns: map<string, Unknown>, raised: map<string, Unknown>, before: map<string, Verification>,
                            v: Verification)
    requires UnknownsReplay(unknowns, raised, before) && v.id in before
    requires before[v.id].outcome != "passed" && v.outcome == "passed"
    ensures UnknownsReplay(ResolveCritical(unknowns, v.decision), raised, before[v.id := v])
  {
    var after := before[v.id := v];
    assert after[v.id] == v;
    assert PassedIn(after, v.decision);
    forall x | x != v.decision ensures PassedIn(after, x) <==> PassedIn(before, x) {
      if k :| k in before && before[k].decision == x && before[k].outcome == "passed" {
        assert after[k] == before[k];
      }
    }
    forall k | k in unknowns ensures UnknownReplays(ResolveCritical(unknowns, v.decision)[k], raised[k], after) {
      assert UnknownReplays(unknowns[k], raised[k], before);
    }
  }

  lemma NotYetCompleted(claims: map<string, Claim>, analysed: map<string, Claim>, before: map<string, Verification>, v: Verification)
    requires ClaimsReplay(claims, analysed, before) && OneCheckEach(before) && v.id in before && v.claim in claims
    requires !before[v.id].status.Completed? && v.claim == before[v.id].claim
    ensures forall j :: !Completes(before, j, v.claim)
    ensures v.claim in analysed && claims[v.claim] == analysed[v.claim]
  {
    assert Replays(claims[v.claim], analysed[v.claim], before, v.claim);
    assert forall j :: !Completes(before, j, v.claim);
  }

  lemma CompletedCheckReplays(claims: map<string, Claim>, analysed: map<string, Claim>, before: map<string, Verification>, v: Verification)
    requires ClaimsReplay(claims, analysed, before) && OneCheckEach(before) && v.id in before && v.claim in claims
    requires !before[v.id].status.Completed? && v.status.Completed? && v.claim == before[v.id].claim
    ensures claims[v.claim] == analysed[v.claim]
    ensures ClaimsReplay(claims[v.claim := Checked(analysed[v.claim], v)], analysed, before[v.id := v])
  {
    hide Checked, Completes, OneCheckEach, Replays;
    NotYetCompleted(claims, analysed, before, v);
    hide Completes, OneCheckEach;
    forall k | k in claims
      ensures Replays(claims[v.claim := Checked(analysed[v.claim], v)][k], analysed[k], before[v.id := v], k)
    {
      if k == v.claim {
        OwnCheckReplays(analysed[k], before, v);
      } else {
        assert Replays(claims[k], analysed[k], before, k);
        OtherCheckReplays(claims[k], analysed[k], before, v, k);
      }
    }
  }

  lemma OwnCheckReplays(original: Claim, before: map<string, Verification>, v: Verification)
    requires v.status.Completed? && forall j :: !Completes(before, j, v.claim)
    ensures Replays(Checked(original, v), original, before[v.id := v], v.claim)
  {
    var after := before[v.id := v];
    assert Completes(after, v.id, v.claim);
    assert forall j | Completes(after, j, v.claim) && j != v.id :: Completes(before, j, v.claim);
  }

  lemma OtherCheckReplays(stored: Claim, original: Claim, before: map<string, Verification>, v: Verification, k: string)
    requires Replays(stored, original, before, k) && v.claim != k
    requires v.id in before && before[v.id].claim == v.claim
    ensures Replays(stored, original, before[v.id := v], k)
  {
    var after := before[v.id := v];
    assert forall j :: Completes(after, j, k) <==> Completes(before, j, k);
  }

  /** The tables a completed check changes. */
  function CompletedDb(db: Db, v: Verification): Db
    requires v.claim in db.claims
  {
    var c := Checked(db.claims[v.claim], v);
    db.(verifications := db.verifications[v.id := v],
        claims := db.claims[v.claim := c],
        relations := db.relations[VerifiedRelationId(v.id) := CheckRelation(c, v)],
        unknowns := if v.outcome == "passed" then ResolveCritical(db.unknowns, v.decision) else db.unknowns)
  }

  lemma CompletedUpdate(db: Db, v: Verification)
    requires Keyed(db.claims, ClaimId) && v.claim in db.claims && v.outcome in ["passed", "failed"]
    ensures UpdateVerification(db, v) == CompletedDb(db, v)
  {
    hide CheckRelation, ResolveCritical;
    assert ClaimId(db.claims[v.claim]) == v.claim;
    assert ClaimOf(db, v.claim) == db.claims[v.claim];
    if v.outcome == "passed" {
      assert AfterPass(db.claims[v.claim]).id == v.claim;
    } else {
      assert v.outcome == "failed";
      assert AfterFailure(db.claims[v.claim]).id == v.claim;
    }
  }

  lemma CompletedKeepsIds(db: Db, v: Verification)
    requires KeyedById(db) && v.claim in db.claims
    ensures KeyedById(CompletedDb(db, v))
  {
    assert ClaimId(Checked(db.claims[v.claim], v)) == v.claim;
    assert RelationId(CheckRelation(Checked(db.claims[v.claim], v), v)) == VerifiedRelationId(v.id);
  }

  lemma CheckedKeepsDecision(claims: map<string, Claim>, v: Verification, checks: map<string, Verification>, hashes: Hashes)
    requires v.claim in claims && ChecksOk(checks, claims, hashes)
    ensures ChecksOk(checks, claims[v.claim := Checked(claims[v.claim], v)], hashes)
  {
    forall k | k in checks ensures CheckOk(checks[k], claims[v.claim := Checked(claims[v.claim], v)], hashes) {
      assert CheckOk(checks[k], claims, hashes);
    }
  }

  /** What completes a stored check. */
  ghost predicate Finishes(before: map<string, Verification>, v: Verification) {
    && v.id in before && !before[v.id].status.Completed? && v.status.Completed?
    && v.claim == before[v.id].claim && v.decision == before[v.id].decision
    && v.outcome in ["passed", "failed"] && before[v.id].outcome == ""
  }

  lemma CompletedClaims(w: World, v: Verification, hashes: Hashes)
    requires Replayed(w, hashes) && Finishes(w.db.verifications, v) && v.claim in w.db.claims
    ensures var claims, checks := w.db.claims[v.claim := Checked(w.db.claims[v.claim], v)], w.db.verifications[v.id := v];
            ClaimsReplay(claims, w.analysed, checks) && OneCheckEach(checks)
  {
    CompletedCheckReplays(w.db.claims, w.analysed, w.db.verifications, v);
  }

  lemma CompletedUnknowns(w: World, v: Verification)
    requires UnknownsReplay(w.db.unknowns, w.raised, w.db.verifications) && Finishes(w.db.verifications, v)
    ensures UnknownsReplay(if v.outcome == "passed" then ResolveCritical(w.db.unknowns, v.decision) else w.db.unknowns,
                           w.raised, w.db.verifications[v.id := v])
  {
    if v.outcome == "passed" {
      PassedCheckResolves(w.db.unknowns, w.raised, w.db.verifications, v);
    } else {
      MovedCheckResolvesNothing(w.db.unknowns, w.raised, w.db.verifications, v);
    }
  }

  lemma CompletedKeepsReplay(w: World, v: Verification, hashes: Hashes)
    requires Replayed(w, hashes) && Finishes(w.db.verifications, v) && CheckOk(v, w.db.claims, hashes)
    ensures Replayed(w.(db := CompletedDb(w.db, v)), hashes)
  {
    CompletedClaims(w, v, hashes);
    CompletedUnknowns(w, v);
    CheckedKeepsDecision(w.db.claims, v, w.db.verifications[v.id := v], hashes);
  }

  lemma CompletedKeepsCertificates(a: Db, v: Verification, hashes: Hashes)
    requires CertificatesOk(a, hashes) && v.claim in a.claims
    ensures CertificatesOk(CompletedDb(a, v), hashes)
  {
    var b := CompletedDb(a, v);
    forall d | d in b.certificates ensures CertificateOk(b, d, hashes) {
      assert CertificateOk(a, d, hashes);
    }
  }

  lemma CompletedKeepsCounts(a: Db, v: Verification, n: nat)
    requires Counted(a, n) && v.id in a.verifications && v.claim in a.claims
    ensures Counted(CompletedDb(a, v), n)
  {
    var b := CompletedDb(a, v);
    SameKeysNumbered(a.claims, b.claims, "clm", n);
    SameKeysNumbered(a.unknowns, b.unknowns, "unk", n);
    SameKeysNumbered(a.verifications, b.verifications, "ver", n);
  }

  lemma CompletedKeepsTables(a: Db, v: Verification, n: nat, hashes: Hashes)
    requires Tables(a, n, hashes) && v.id in a.verifications && v.claim in a.claims
    ensures Tables(CompletedDb(a, v), n, hashes)
  {
    CompletedKeepsIds(a, v);
    CompletedKeepsCertificates(a, v, hashes);
    CompletedKeepsOwners(a, v);
    CompletedKeepsCounts(a, v, n);
  }

  lemma CompletedKeepsOwners(a: Db, v: Verification)
    requires Owned(a) && v.claim in a.claims
    ensures Owned(CompletedDb(a, v))
  {
  }

  lemma DoneIsOk(before: map<string, Verification>, claims: map<string, Claim>, v: Verification, environment: string,
                 outcome: string, artifact: string, hashes: Hashes, now: int)
    requires ChecksOk(before, claims, hashes) && v.id in before && !before[v.id].status.Completed?
    requires v == before[v.id].(status := v.status, approved := true, approvedBy := v.approvedBy)
    requires environment in ["sandbox", "staging"] && outcome in ["passed", "failed"] && artifact != ""
    ensures var done := Complete(v, environment, outcome, artifact, hashes, now);
            Finishes(before, done) && CheckOk(done, claims, hashes)
  {
    assert CheckOk(before[v.id], claims, hashes);
  }

  lemma CompletedKeepsInv(w: World, v: Verification, hashes: Hashes)
    requires Inv(w, hashes) && Finishes(w.db.verifications, v) && CheckOk(v, w.db.claims, hashes)
    ensures Inv(w.(db := UpdateVerification(w.db, v)), hashes)
  {
    CompletedUpdate(w.db, v);
    CompletedKeepsReplay(w, v, hashes);
    CompletedKeepsTables(w.db, v, w.drawn, hashes);
  }

  lemma FinishResult(db: Db, v: Verification, environment: string, outcome: string, artifact: string, hashes: Hashes, now: int)
    requires v.id in db.verifications
    ensures Finish(db, v, environment, outcome, artifact, hashes, now).0
            == if outcome in ["passed", "failed"] && artifact != ""
               then UpdateVerification(db, Complete(v, environment, outcome, artifact, hashes, now)) else db
  {
  }

  lemma FinishKeepsInv(w: World, v: Verification, environment: string, outcome: string, artifact: string, hashes: Hashes, now: int)
    requires Inv(w, hashes) && v.id in w.db.verifications && !w.db.verifications[v.id].status.Completed?
    requires v == w.db.verifications[v.id].(status := v.status, approved := true, approvedBy := v.approvedBy)
    requires environment in ["sandbox", "staging"]
    ensures Inv(w.(db := Finish(w.db, v, environment, outcome, artifact, hashes, now).0), hashes)
  {
    FinishResult(w.db, v, environment, outcome, artifact, hashes, now);
    if outcome in ["passed", "failed"] && artifact != "" {
      DoneIsOk(w.db.verifications, w.db.claims, v, environment, outcome, artifact, hashes, now);
      CompletedKeepsInv(w, Complete(v, environment, outcome, artifact, hashes, now), hashes);
    }
  }

  function ChosenEnvironment(v: Verification, input: CheckInput): string {
    if input.environment == "" then v.environment else input.environment
  }

  /** An admitted request either runs the check first or goes straight to its end. */
  lemma ExecuteResult(db: Db, id: string, input: CheckInput, executed: Option<(string, string)>, hashes: Hashes, now: int)
    ensures var t := Service.ExecuteVerification(db, id, input, executed, hashes, now).0;
            if id in db.verifications && CheckRefusal(db.verifications[id], input).None? then
              var v := db.verifications[id];
              var running := Approve(v, input).(status := Running);
              if input.outcome == "" && input.artifact == "" then
                if executed.Some? then
                  t == Finish(UpdateVerification(db, running), running, ChosenEnvironment(v, input), executed.value.0,
                              executed.value.1, hashes, now).0
                else t == UpdateVerification(db, running)
              else t == Finish(db, Approve(v, input), ChosenEnvironment(v, input), input.outcome, input.artifact, hashes, now).0
            else t == db
  {
  }

  lemma AdmittedRequest(v: Verification, input: CheckInput)
    requires CheckRefusal(v, input).None?
    ensures !v.status.Completed? && ChosenEnvironment(v, input) in ["sandbox", "staging"]
    ensures v.requiresApproval ==> input.approved
  {
  }

  lemma AdmittedKeepsInv(w: World, v: Verification, input: CheckInput, executed: Option<(string, string)>, hashes: Hashes, now: int)
    requires Inv(w, hashes) && v.id in w.db.verifications && v == w.db.verifications[v.id]
    requires CheckRefusal(v, input).None?
    ensures Inv(w.(db := Service.ExecuteVerification(w.db, v.id, input, executed, hashes, now).0), hashes)
  {
    ExecuteResult(w.db, v.id, input, executed, hashes, now);
    AdmittedRequest(v, input);
    var environment := ChosenEnvironment(v, input);
    var approved := Approve(v, input);
    assert approved == v.(status := approved.status, approved := true, approvedBy := approved.approvedBy);
    if input.outcome == "" && input.artifact == "" {
      RunKeepsInv(w, v, approved.(status := Running), environment, executed, hashes, now);
    } else {
      FinishKeepsInv(w, approved, environment, input.outcome, input.artifact, hashes, now);
    }
  }

  lemma ExecuteKeepsInv(w: World, id: string, input: CheckInput, executed: Option<(string, string)>, hashes: Hashes, now: int)
    requires Inv(w, hashes)
    ensures Inv(w.(db := Service.ExecuteVerification(w.db, id, input, executed, hashes, now).0), hashes)
  {
    hide Replayed;
    if id in w.db.verifications && CheckRefusal(w.db.verifications[id], input).None? {
      assert VerificationId(w.db.verifications[id]) == id;
      AdmittedKeepsInv(w, w.db.verifications[id], input, executed, hashes, now);
    } else {
      ExecuteResult(w.db, id, input, executed, hashes, now);
    }
  }

  lemma RunKeepsInv(w: World, v: Verification, running: Verification, environment: string, executed: Option<(string, string)>,
                    hashes: Hashes, now: int)
    requires Inv(w, hashes) && v.id in w.db.verifications && v == w.db.verifications[v.id] && !v.status.Completed?
    requires running == v.(status := Running, approved := true, approvedBy := running.approvedBy)
    requires environment in ["sandbox", "staging"]
    ensures var started := w.(db := UpdateVerification(w.db, running));
            Inv(started, hashes)
            && (executed.Some? ==>
                  Inv(w.(db := Finish(started.db, running, environment, executed.value.0, executed.value.1, hashes, now).0), hashes))
  {
    hide ChecksOk;
    StartedKeepsInv(w, running, hashes);
    StartedUpdate(w.db, running, hashes);
    if executed.Some? {
      FinishKeepsInv(w.(db := UpdateVerification(w.db, running)), running, environment, executed.value.0, executed.value.1, hashes, now);
    }
  }

  // ---- Judge

  lemma HashesAreSorted(g: Graph)
    ensures SortedText(ArtifactHashes(g))
    ensures multiset(ArtifactHashes(g)) == multiset(EvidenceHashes(g.evidence)) + multiset(CheckHashes(g.verifications))
  {
    var all := EvidenceHashes(g.evidence) + CheckHashes(g.verifications);
    TextOrderIsStrictWeak();
    Sorting.SortOrders(all, TextOrder);
    Sorting.SortPermutes(all, TextOrder);
  }

  lemma TextOrderIsStrictWeak()
    ensures Sorting.StrictWeakOrder(TextOrder)
  {
    forall x, y ensures TextOrder(x, y) ==> !TextOrder(y, x) {
      PrecedesIsLinear(x, y);
    }
    forall x, y, z | TextOrder(x, y) && TextOrder(y, z) ensures TextOrder(x, z) {
      PrecedesIsTransitive(x, y, z);
    }
    forall x, y, z | !TextOrder(x, y) && !TextOrder(y, z) ensures !TextOrder(x, z) {
      PrecedesIsLinear(x, y);
      PrecedesIsLinear(y, z);
      PrecedesIsLinear(x, z);
      if TextOrder(x, z) && TextOrder(y, x) {
        PrecedesIsTransitive(y, x, z);
      }
      if TextOrder(x, z) && TextOrder(z, y) {
        PrecedesIsTransitive(x, z, y);
      }
    }
  }

  lemma ListedUnknownsDecide(db: Db, d: string)
    requires KeyedById(db) && !Policy.OpenCriticalUnknown(UnknownsOf(db, d))
    ensures NoOpenCritical(db.unknowns, d)
  {
    var listed := UnknownsOf(db, d);
    ListingHolds(db.unknowns, (u: Unknown) => u.decision == d, UnknownId);
    forall k | k in db.unknowns && db.unknowns[k].decision == d && db.unknowns[k].critical ensures db.unknowns[k].resolved {
      assert UnknownId(db.unknowns[k]) == k;
      assert db.unknowns[k] in listed;
      var i :| 0 <= i < |listed| && listed[i] == db.unknowns[k];
    }
  }

  lemma JudgedKeepsTables(a: Db, judged: Decision, c: Certificate, n: nat, hashes: Hashes)
    requires Tables(a, n, hashes) && judged.id in a.decisions && judged.run == a.decisions[judged.id].run
    requires judged.id !in a.certificates && c.decision == judged.id
    requires CertificateOk(SaveCertificate(SaveDecision(a, judged), c), judged.id, hashes)
    ensures Tables(SaveCertificate(SaveDecision(a, judged), c), n, hashes)
  {
    hide CertificatesOk, CertificateOk, Owned, RunsLinked, Numbered;
    var b := SaveCertificate(SaveDecision(a, judged), c);
    assert b == a.(decisions := a.decisions[judged.id := judged], certificates := a.certificates[judged.id := c]);
    SameKeysNumbered(a.decisions, b.decisions, "dec", n);
    JudgedKeepsOwners(a, b, judged);
    JudgedKeepsCertificates(a, b, judged, c, hashes);
  }

  lemma JudgedKeepsCertificates(a: Db, b: Db, judged: Decision, c: Certificate, hashes: Hashes)
    requires b == a.(decisions := a.decisions[judged.id := judged], certificates := a.certificates[judged.id := c])
    requires CertificatesOk(a, hashes) && judged.id !in a.certificates && CertificateOk(b, judged.id, hashes)
    ensures CertificatesOk(b, hashes)
  {
    forall d | d in b.certificates ensures CertificateOk(b, d, hashes) {
      if d != judged.id {
        assert CertificateOk(a, d, hashes);
      }
    }
  }

  lemma JudgedKeepsOwners(a: Db, b: Db, judged: Decision)
    requires RunsLinked(a.runs, a.decisions) && Owned(a)
    requires judged.id in a.decisions && judged.run == a.decisions[judged.id].run
    requires b == a.(decisions := a.decisions[judged.id := judged], certificates := b.certificates)
    ensures RunsLinked(b.runs, b.decisions) && Owned(b)
  {
    forall d | Settled(a.runs, a.decisions, d) ensures Settled(b.runs, b.decisions, d) {
    }
  }

  lemma IssuedCarriesItsDigest(g: Graph, approved: bool, hashes: Hashes, now: int)
    ensures var c := Issue(g, approved, hashes, now);
            && c.algorithm == "SHA-256" && c.digest == Digest(c, hashes)
            && c.artifactHashes == ArtifactHashes(g) && c.claims == g.claims && c.decision == g.decision.id
  {
    var d := Judged(g, approved, now);
    var unsigned := Unsigned(g, d, Policy.Judge(g.claims, g.unknowns, approved).verdict, now);
    assert Issue(g, approved, hashes, now).(algorithm := "", digest := "") == unsigned;
  }

  lemma IssuedIsOk(a: Db, g: Graph, d: string, approved: bool, hashes: Hashes, now: int)
    requires KeyedById(a) && d in a.decisions && d !in a.certificates
    requires g.decision == a.decisions[d] && g.claims == ClaimsOf(a, d) && g.unknowns == UnknownsOf(a, d)
    ensures CertificateOk(SaveCertificate(SaveDecision(a, Judged(g, approved, now)), Issue(g, approved, hashes, now)), d, hashes)
  {
    hide CheckHashes, ClaimsOf, DistinctKeys, UnknownsOf;
    var b := SaveCertificate(SaveDecision(a, Judged(g, approved, now)), Issue(g, approved, hashes, now));
    HashesAreSorted(g);
    ClaimsOfDecision(a, d);
    IssuedCarriesItsDigest(g, approved, hashes, now);
    assert b.certificates[d] == Issue(g, approved, hashes, now) && b.decisions[d] == Judged(g, approved, now);
    if Policy.Gates(g.claims, g.unknowns) {
      ListedUnknownsDecide(a, d);
    }
  }

  lemma EvaluateResult(db: Db, d: string, approved: bool, hashes: Hashes, now: int)
    requires KeyedById(db) && RunsLinked(db.runs, db.decisions)
    ensures var g := Project(db, RunOf(db, DecisionOf(db, d).run));
            Service.Evaluate(db, d, approved, hashes, now)
            == if d in db.certificates then (db, Ok(db.certificates[d]))
               else if d !in db.decisions then (db, Failed(NotFound))
               else (SaveCertificate(SaveDecision(db, Judged(g, approved, now)), Issue(g, approved, hashes, now)),
                     Ok(Issue(g, approved, hashes, now)))
  {
    if d in db.decisions {
      GraphOfDecision(db, d);
    }
  }

  lemma JudgeKeepsInv(w: World, d: string, approved: bool, hashes: Hashes, now: int)
    requires Inv(w, hashes)
    ensures Inv(w.(db := Service.Evaluate(w.db, d, approved, hashes, now).0), hashes)
  {
    EvaluateResult(w.db, d, approved, hashes, now);
    if d !in w.db.certificates && d in w.db.decisions {
      var g := Project(w.db, RunOf(w.db, DecisionOf(w.db, d).run));
      GraphOfDecision(w.db, d);
      IssuedIsOk(w.db, g, d, approved, hashes, now);
      JudgedKeepsTables(w.db, Judged(g, approved, now), Issue(g, approved, hashes, now), w.drawn, hashes);
    }
  }

  // ---- Every call, every run

  lemma CreateKeepsInv(w: World, input: RunInput, hashes: Hashes, now: int)
    requires Inv(w, hashes)
    ensures Inv(After(w, Create(input), hashes, now), hashes)
  {
    CreatingKeepsTables(w.db, input, w.drawn, hashes, now);
  }

  lemma AddKeepsInv(w: World, run: string, event: EventInput, hashes: Hashes, now: int)
    requires Inv(w, hashes)
    ensures Inv(After(w, Add(run, event), hashes, now), hashes)
  {
    AddKeepsTables(w.db, run, event, w.drawn, hashes, now);
  }

  lemma AnalyseKeepsInv(w: World, run: string, proposal: Option<Analysis>, hashes: Hashes, now: int)
    requires Inv(w, hashes)
    ensures Inv(After(w, Analyse(run, proposal), hashes, now), hashes)
  {
    if Analyses(w.db, run, proposal) {
      AnalysisKeepsInv(w, run, proposal.value, now, hashes);
    } else {
      AnalyzeResult(w.db, run, proposal, w.drawn, now);
    }
  }

  lemma CallKeepsInv(w: World, call: Call, hashes: Hashes, now: int)
    requires Inv(w, hashes)
    ensures Inv(After(w, call, hashes, now), hashes)
  {
    hide *;
    InvParts(w, hashes);
    AfterEachCall(w, call, hashes, now);
    match call
    case Create(input) => CreateKeepsInv(w, input, hashes, now);
    case Add(run, event) => AddKeepsInv(w, run, event, hashes, now);
    case Analyse(run, proposal) => AnalyseKeepsInv(w, run, proposal, hashes, now);
    case PlanChecks(d, spec) => PlanKeepsInv(w, d, spec, now, hashes);
    case Execute(check, request, executed) => ExecuteKeepsInv(w, check, request, executed, hashes, now);
    case Judge(d, approved) => JudgeKeepsInv(w, d, approved, hashes, now);
  }

  /** worlds[0] is the empty repository; each call leads from one world to the next. */
  ghost predicate History(worlds: seq<World>, calls: seq<Call>, times: seq<int>, hashes: Hashes) {
    && |worlds| == |calls| + 1 && |times| == |calls| && worlds[0] == START
    && forall i | 0 <= i < |calls| :: worlds[i + 1] == After(worlds[i], calls[i], hashes, times[i])
  }

  /** Every state reached by any sequence of calls satisfies the invariant: in particular
      stored claims and unknowns are a replay of what was analysed and checked. */
  lemma {:induction false} ReachableKeepsInv(worlds: seq<World>, calls: seq<Call>, times: seq<int>, hashes: Hashes, i: nat)
    requires History(worlds, calls, times, hashes) && i < |worlds|
    ensures Inv(worlds[i], hashes)
  {
    if i == 0 {
      StartIsOk(hashes);
    } else {
      ReachableKeepsInv(worlds, calls, times, hashes, i - 1);
      CallKeepsInv(worlds[i - 1], calls[i - 1], hashes, times[i - 1]);
    }
  }

  lemma StartIsOk(hashes: Hashes)
    ensures Inv(START, hashes)
  {
  }

  // ---- Certificates over whole runs

  lemma AnalyzeResult(db: Db, run: string, proposal: Option<Analysis>, n: nat, now: int)
    ensures Service.Analyze(db, run, proposal, n, now).0
            == if Analyses(db, run, proposal)
               then SaveAnalysis(db, run, Relabel.Relabelled(proposal.value, n, now, DecisionOf(db, db.runs[run].decision).id))
               else db
  {
  }

  lemma SavingKeepsOtherTables(db: Db, run: string, b: Analysis)
    requires run in db.runs
    ensures SaveAnalysis(db, run, b).certificates == db.certificates && SaveAnalysis(db, run, b).verifications == db.verifications
  {
  }

  lemma AnalyseKeepsOtherTables(db: Db, run: string, proposal: Option<Analysis>, n: nat, now: int)
    ensures var t := Service.Analyze(db, run, proposal, n, now).0;
            t.certificates == db.certificates && t.verifications == db.verifications
  {
    AnalyzeResult(db, run, proposal, n, now);
    if Analyses(db, run, proposal) {
      SavingKeepsOtherTables(db, run, Relabel.Relabelled(proposal.value, n, now, DecisionOf(db, db.runs[run].decision).id));
    }
  }

  lemma CreatingKeepsOtherTables(db: Db, input: RunInput, n: nat, now: int)
    ensures var t := Service.CreateRun(db, input, n, now).0;
            t.certificates == db.certificates && t.verifications == db.verifications
  {
  }

  lemma AddingKeepsOtherTables(db: Db, run: string, event: EventInput, n: nat, now: int)
    ensures var t := Service.AddEvent(db, run, event, n, now).0;
            t.certificates == db.certificates && t.verifications == db.verifications
  {
    ServiceAddsAtMostOne(db, run, event, n, now);
    var e := NewEvent(event, n, now);
    if run in db.runs && FindExternal(db.runs[run].events, e.externalId).None? {
      StoredEventChangesOneRun(db, run, e);
    }
  }

  lemma PlanKeepsCertificates(db: Db, d: string, spec: Claim -> (string, string), n: nat, now: int)
    requires KeyedById(db) && RunsLinked(db.runs, db.decisions)
    ensures Service.Plan(db, d, spec, n, now).0.certificates == db.certificates
  {
    PlanResult(db, d, spec, n, now);
  }

  lemma EvaluateKeepsChecks(db: Db, d: string, approved: bool, hashes: Hashes, now: int)
    requires KeyedById(db) && RunsLinked(db.runs, db.decisions)
    ensures Service.Evaluate(db, d, approved, hashes, now).0.verifications == db.verifications
  {
    hide KeyedById, Project, Policy.Judge, Unsigned;
    EvaluateResult(db, d, approved, hashes, now);
  }

  lemma EvaluateKeepsCertificates(db: Db, other: string, approved: bool, hashes: Hashes, now: int, d: string)
    requires KeyedById(db) && RunsLinked(db.runs, db.decisions) && d in db.certificates
    ensures var t := Service.Evaluate(db, other, approved, hashes, now).0;
            d in t.certificates && t.certificates[d] == db.certificates[d]
  {
    EvaluateResult(db, other, approved, hashes, now);
  }

  lemma UpdateKeepsCertificates(db: Db, v: Verification)
    ensures UpdateVerification(db, v).certificates == db.certificates
    ensures v.id in UpdateVerification(db, v).verifications
  {
  }

  lemma ExecuteKeepsCertificates(db: Db, id: string, input: CheckInput, executed: Option<(string, string)>, hashes: Hashes, now: int)
    requires Keyed(db.verifications, VerificationId)
    ensures Service.ExecuteVerification(db, id, input, executed, hashes, now).0.certificates == db.certificates
  {
    ExecuteResult(db, id, input, executed, hashes, now);
    if id in db.verifications && CheckRefusal(db.verifications[id], input).None? {
      var v := db.verifications[id];
      assert VerificationId(v) == id;
      var environment := ChosenEnvironment(v, input);
      if input.outcome == "" && input.artifact == "" {
        var running := Approve(v, input).(status := Running);
        UpdateKeepsCertificates(db, running);
        if executed.Some? {
          var started := UpdateVerification(db, running);
          FinishResult(started, running, environment, executed.value.0, executed.value.1, hashes, now);
          UpdateKeepsCertificates(started, Complete(running, environment, executed.value.0, executed.value.1, hashes, now));
        }
      } else {
        var approved := Approve(v, input);
        FinishResult(db, approved, environment, input.outcome, input.artifact, hashes, now);
        UpdateKeepsCertificates(db, Complete(approved, environment, input.outcome, input.artifact, hashes, now));
      }
    }
  }

  /** What every stored certificate says, in every reachable state. */
  lemma CertificatesAreSafe(worlds: seq<World>, calls: seq<Call>, times: seq<int>, hashes: Hashes, i: nat, d: string)
    requires History(worlds, calls, times, hashes) && i < |worlds| && d in worlds[i].db.certificates
    ensures CertificateOk(worlds[i].db, d, hashes)
  {
    ReachableKeepsInv(worlds, calls, times, hashes, i);
  }

  /** A fresh certificate lists exactly the non-empty hashes of the evidence and checks of
      its graph, sorted, and its verdict is the policy's. */
  lemma IssuedCertificate(w: World, d: string, approved: bool, hashes: Hashes, now: int)
    requires Inv(w, hashes) && d in w.db.decisions && d !in w.db.certificates
    ensures var result := Service.Evaluate(w.db, d, approved, hashes, now).1;
            && result.Ok?
            && SortedText(result.value.artifactHashes)
            && multiset(result.value.artifactHashes)
               == multiset(EvidenceHashes(EvidenceOf(w.db, w.db.decisions[d].run))) + multiset(CheckHashes(VerificationsOf(w.db, d)))
            && result.value.verdict == Policy.Judge(ClaimsOf(w.db, d), UnknownsOf(w.db, d), approved).verdict
            && (result.value.actionAllowed <==> approved && Policy.Gates(ClaimsOf(w.db, d), UnknownsOf(w.db, d)))
            && result.value.claims == ClaimsOf(w.db, d)
  {
    hide Inv, Service.Evaluate, KeyedById, RunsLinked, ClaimsOf, UnknownsOf, VerificationsOf, EvidenceOf, EvidenceHashes,
         CheckHashes, SortedText, Counted, Owned;
    InvParts(w, hashes);
    EvaluateResult(w.db, d, approved, hashes, now);
    GraphOfDecision(w.db, d);
    var g := Project(w.db, RunOf(w.db, DecisionOf(w.db, d).run));
    HashesAreSorted(g);
    IssuedCarriesItsDigest(g, approved, hashes, now);
  }

  // ---- Checks only move forward

  function Rank(status: CheckStatus): nat {
    match status
    case Planned => 0
    case Running => 1
    case Completed => 2
  }

  /** Between two states: no check disappears or moves back, and completed ones are frozen. */
  ghost predicate Forward(before: map<string, Verification>, after: map<string, Verification>) {
    forall k | k in before ::
      && k in after && Rank(before[k].status) <= Rank(after[k].status)
      && before[k].claim == after[k].claim && before[k].decision == after[k].decision
      && (before[k].status.Completed? ==> after[k] == before[k])
  }

  lemma UpdateStoresTheCheck(db: Db, v: Verification)
    ensures UpdateVerification(db, v).verifications == db.verifications[v.id := v]
  {
  }

  /** v may replace the stored check. */
  ghost predicate Advances(before: map<string, Verification>, v: Verification) {
    && v.id in before && !before[v.id].status.Completed? && Rank(before[v.id].status) <= Rank(v.status)
    && v.claim == before[v.id].claim && v.decision == before[v.id].decision
  }

  lemma UpdateMovesForward(db: Db, v: Verification)
    requires Advances(db.verifications, v)
    ensures Forward(db.verifications, UpdateVerification(db, v).verifications)
  {
    UpdateStoresTheCheck(db, v);
  }

  lemma ForwardIsTransitive(a: map<string, Verification>, b: map<string, Verification>, c: map<string, Verification>)
    requires Forward(a, b) && Forward(b, c)
    ensures Forward(a, c)
  {
  }

  lemma FinishMovesForward(db: Db, v: Verification, environment: string, outcome: string, artifact: string, hashes: Hashes, now: int)
    requires Advances(db.verifications, v)
    ensures Forward(db.verifications, Finish(db, v, environment, outcome, artifact, hashes, now).0.verifications)
  {
    FinishResult(db, v, environment, outcome, artifact, hashes, now);
    UpdateMovesForward(db, Complete(v, environment, outcome, artifact, hashes, now));
  }

  lemma RunMovesForward(db: Db, running: Verification, environment: string, executed: (string, string), hashes: Hashes, now: int)
    requires Advances(db.verifications, running) && !running.status.Completed?
    ensures Forward(db.verifications,
                    Finish(UpdateVerification(db, running), running, environment, executed.0, executed.1, hashes, now).0.verifications)
  {
    var started := UpdateVerification(db, running);
    UpdateStoresTheCheck(db, running);
    UpdateMovesForward(db, running);
    FinishMovesForward(started, running, environment, executed.0, executed.1, hashes, now);
    ForwardIsTransitive(db.verifications, started.verifications,
                        Finish(started, running, environment, executed.0, executed.1, hashes, now).0.verifications);
  }

  lemma ExecuteMovesForward(db: Db, id: string, input: CheckInput, executed: Option<(string, string)>, hashes: Hashes, now: int)
    requires Keyed(db.verifications, VerificationId)
    ensures Forward(db.verifications, Service.ExecuteVerification(db, id, input, executed, hashes, now).0.verifications)
  {
    ExecuteResult(db, id, input, executed, hashes, now);
    if id in db.verifications && CheckRefusal(db.verifications[id], input).None? {
      var v := db.verifications[id];
      assert VerificationId(v) == id;
      AdmittedRequest(v, input);
      var approved, environment := Approve(v, input), ChosenEnvironment(v, input);
      if input.outcome == "" && input.artifact == "" {
        UpdateMovesForward(db, approved.(status := Running));
        if executed.Some? {
          RunMovesForward(db, approved.(status := Running), environment, executed.value, hashes, now);
        }
      } else {
        FinishMovesForward(db, approved, environment, input.outcome, input.artifact, hashes, now);
      }
    }
  }

  lemma PlanMovesForward(db: Db, d: string, spec: Claim -> (string, string), n: nat, now: int, hashes: Hashes)
    requires Tables(db, n, hashes)
    ensures Forward(db.verifications, Service.Plan(db, d, spec, n, now).0.verifications)
  {
    PlanResult(db, d, spec, n, now);
    ClaimsOfDecision(db, d);
    var out := Checks(ClaimsOf(db, d), d, spec, n, now);
    ChecksAreNew(ClaimsOf(db, d), d, spec, n, now, hashes, db.claims);
    NewChecksKeyed(db.verifications, out, n);
  }

  /** What no call ever takes back. */
  ghost predicate Grows(a: Db, b: Db) {
    && (forall d | d in a.certificates :: d in b.certificates && b.certificates[d] == a.certificates[d])
    && Forward(a.verifications, b.verifications)
  }

  lemma SameTablesGrow(a: Db, b: Db)
    requires b.certificates == a.certificates && b.verifications == a.verifications
    ensures Grows(a, b)
  {
  }

  lemma CreateGrows(w: World, input: RunInput, hashes: Hashes, now: int)
    ensures Grows(w.db, After(w, Create(input), hashes, now).db)
  {
    CreatingKeepsOtherTables(w.db, input, w.drawn, now);
    SameTablesGrow(w.db, Service.CreateRun(w.db, input, w.drawn, now).0);
  }

  lemma AddGrows(w: World, run: string, event: EventInput, hashes: Hashes, now: int)
    ensures Grows(w.db, After(w, Add(run, event), hashes, now).db)
  {
    AddingKeepsOtherTables(w.db, run, event, w.drawn, now);
    SameTablesGrow(w.db, Service.AddEvent(w.db, run, event, w.drawn, now).0);
  }

  lemma AnalyseGrows(w: World, run: string, proposal: Option<Analysis>, hashes: Hashes, now: int)
    ensures Grows(w.db, After(w, Analyse(run, proposal), hashes, now).db)
  {
    AnalyseKeepsOtherTables(w.db, run, proposal, w.drawn, now);
    SameTablesGrow(w.db, Service.Analyze(w.db, run, proposal, w.drawn, now).0);
  }

  lemma PlanGrows(w: World, d: string, spec: Claim -> (string, string), hashes: Hashes, now: int)
    requires Inv(w, hashes)
    ensures Grows(w.db, After(w, PlanChecks(d, spec), hashes, now).db)
  {
    hide Grows, Tables, Plan;
    PlanningGrows(w.db, d, spec, w.drawn, hashes, now);
  }

  lemma PlanningGrows(db: Db, d: string, spec: Claim -> (string, string), n: nat, hashes: Hashes, now: int)
    requires Tables(db, n, hashes)
    ensures Grows(db, Service.Plan(db, d, spec, n, now).0)
  {
    PlanKeepsCertificates(db, d, spec, n, now);
    PlanMovesForward(db, d, spec, n, now, hashes);
    SameCertificatesGrow(db, Service.Plan(db, d, spec, n, now).0);
  }

  lemma SameCertificatesGrow(a: Db, b: Db)
    requires b.certificates == a.certificates && Forward(a.verifications, b.verifications)
    ensures Grows(a, b)
  {
  }

  lemma ExecutionGrows(db: Db, check: string, request: CheckInput, executed: Option<(string, string)>, hashes: Hashes, now: int)
    requires Keyed(db.verifications, VerificationId)
    ensures Grows(db, Service.ExecuteVerification(db, check, request, executed, hashes, now).0)
  {
    ExecuteKeepsCertificates(db, check, request, executed, hashes, now);
    ExecuteMovesForward(db, check, request, executed, hashes, now);
  }

  lemma ExecuteGrows(w: World, check: string, request: CheckInput, executed: Option<(string, string)>, hashes: Hashes, now: int)
    requires Keyed(w.db.verifications, VerificationId)
    ensures Grows(w.db, After(w, Execute(check, request, executed), hashes, now).db)
  {
    ExecutionGrows(w.db, check, request, executed, hashes, now);
  }

  lemma EvaluationGrows(db: Db, d: string, approved: bool, hashes: Hashes, now: int)
    requires KeyedById(db) && RunsLinked(db.runs, db.decisions)
    ensures Grows(db, Service.Evaluate(db, d, approved, hashes, now).0)
  {
    EvaluateKeepsChecks(db, d, approved, hashes, now);
    forall x | x in db.certificates {
      EvaluateKeepsCertificates(db, d, approved, hashes, now, x);
    }
  }

  lemma JudgeGrows(w: World, d: string, approved: bool, hashes: Hashes, now: int)
    requires KeyedById(w.db) && RunsLinked(w.db.runs, w.db.decisions)
    ensures Grows(w.db, After(w, Judge(d, approved), hashes, now).db)
  {
    hide Inv;
    EvaluationGrows(w.db, d, approved, hashes, now);
  }

  lemma CallGrows(w: World, call: Call, hashes: Hashes, now: int)
    requires Inv(w, hashes)
    ensures Grows(w.db, After(w, call, hashes, now).db)
  {
    hide *;
    InvParts(w, hashes);
    AfterEachCall(w, call, hashes, now);
    match call
    case Create(input) => CreateGrows(w, input, hashes, now);
    case Add(run, event) => AddGrows(w, run, event, hashes, now);
    case Analyse(run, proposal) => AnalyseGrows(w, run, proposal, hashes, now);
    case PlanChecks(d, spec) => PlanGrows(w, d, spec, hashes, now);
    case Execute(check, request, executed) => ExecuteGrows(w, check, request, executed, hashes, now);
    case Judge(d, approved) => JudgeGrows(w, d, approved, hashes, now);
  }

  /** Over whole histories nothing is taken back: certificates never change, checks never
      move back, and completed checks are frozen. */
  lemma {:induction false} HistoryGrows(worlds: seq<World>, calls: seq<Call>, times: seq<int>, hashes: Hashes, i: nat, j: nat)
    requires History(worlds, calls, times, hashes) && i <= j < |worlds|
    ensures Grows(worlds[i].db, worlds[j].db)
  {
    hide After, Inv;
    if i < j {
      HistoryGrows(worlds, calls, times, hashes, i, j - 1);
      ReachableKeepsInv(worlds, calls, times, hashes, j - 1);
      CallGrows(worlds[j - 1], calls[j - 1], hashes, times[j - 1]);
    } else {
      SameTablesGrow(worlds[i].db, worlds[j].db);
    }
  }

  /** Every evaluation after a certificate was issued returns that certificate and stores
      nothing. */
  lemma CertificatesAreForever(worlds: seq<World>, calls: seq<Call>, times: seq<int>, hashes: Hashes,
                               i: nat, j: nat, d: string, approved: bool, now: int)
    requires History(worlds, calls, times, hashes) && i <= j < |worlds| && d in worlds[i].db.certificates
    ensures Service.Evaluate(worlds[j].db, d, approved, hashes, now) == (worlds[j].db, Ok(worlds[i].db.certificates[d]))
  {
    HistoryGrows(worlds, calls, times, hashes, i, j);
  }
}
