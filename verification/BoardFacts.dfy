/** What an account dashboard says, number by number, in terms of the stored tables alone. */
module BoardFacts {
  import opened Text
  import opened Domain
  import opened Store
  import opened Portfolio
  import opened DashboardCounts
  import opened DashboardRows
  import opened DashboardRuns
  import opened Dashboard

  // ---- Runs and what belongs to them

  ghost predicate OwnProject(t: Tables, account: string, p: string) {
    p in t.projects && t.projects[p].account == account
  }

  /** The account's runs, and all runs of its projects. */
  ghost function RunsSeen(t: Tables, account: string): set<string> {
    set r | r in t.db.runs && (t.db.runs[r].account == account || OwnProject(t, account, t.db.runs[r].project))
  }

  ghost function RunsIn(t: Tables, p: string): set<string> {
    set r | r in t.db.runs && t.db.runs[r].project == p
  }

  /** The ID of the stored decision the run names. */
  ghost function Named(db: Db, r: string): string
    requires r in db.runs
  {
    if db.runs[r].decision in db.decisions then db.decisions[db.runs[r].decision].id else ""
  }

  /** A claim of a state counted here belongs to the run. */
  ghost function ClaimsWith(db: Db, runs: set<string>, states: set<ClaimState>): set<(string, string)> {
    set r, c | r in runs && r in db.runs && c in db.claims && db.claims[c].decision == Named(db, r) && db.claims[c].state in states :: (r, c)
  }

  ghost function AllClaims(db: Db, runs: set<string>): set<(string, string)> {
    set r, c | r in runs && r in db.runs && c in db.claims && db.claims[c].decision == Named(db, r) :: (r, c)
  }

  ghost function AllEvidence(db: Db, runs: set<string>): set<(string, string)> {
    set r, e | r in runs && r in db.runs && e in db.evidence && db.evidence[e].run == db.runs[r].id :: (r, e)
  }

  ghost function OpenUnknowns(db: Db, runs: set<string>): set<(string, string)> {
    set r, u | r in runs && r in db.runs && u in db.unknowns && db.unknowns[u].decision == Named(db, r) && !db.unknowns[u].resolved :: (r, u)
  }

  ghost predicate Knows(db: Db, runs: set<string>, k: Knowledge) {
    && k.claims == |AllClaims(db, runs)| && k.evidence == |AllEvidence(db, runs)| && k.open == |OpenUnknowns(db, runs)|
    && k.supported == |ClaimsWith(db, runs, {ClaimState.Supported, ClaimState.ExternallyVerified})|
    && k.contradicted == |ClaimsWith(db, runs, {ClaimState.Contradicted, ClaimState.Rejected})|
    && k.stale == |ClaimsWith(db, runs, {ClaimState.Stale})|
  }

  lemma KnowledgeKnows(db: Db, runs: set<string>)
    requires runs <= db.runs.Keys
    ensures Knows(db, runs, KnowledgeOf(db, runs))
  {
    hide Named;
    forall r | r in runs ensures DecisionIdOf(db, r) == Named(db, r) && RunOf(db, r) == db.runs[r] {
      NamedDecision(db, r);
    }
    ClaimStatesCounted(db, runs);
    assert Pairs(runs, EvidenceIn(db)) == AllEvidence(db, runs);
    assert Pairs(runs, OpenIn(db)) == OpenUnknowns(db, runs);
  }

  lemma NamedDecision(db: Db, r: string)
    requires r in db.runs
    ensures DecisionIdOf(db, r) == Named(db, r) && RunOf(db, r) == db.runs[r]
  {
  }

  lemma ClaimStatesCounted(db: Db, runs: set<string>)
    requires runs <= db.runs.Keys && forall r | r in runs :: DecisionIdOf(db, r) == Named(db, r)
    ensures Pairs(runs, ClaimsIn(db)) == AllClaims(db, runs)
    ensures Pairs(runs, SupportedIn(db)) == ClaimsWith(db, runs, {ClaimState.Supported, ClaimState.ExternallyVerified})
    ensures Pairs(runs, ContradictedIn(db)) == ClaimsWith(db, runs, {ClaimState.Contradicted, ClaimState.Rejected})
    ensures Pairs(runs, StaleIn(db)) == ClaimsWith(db, runs, {ClaimState.Stale})
  {
    hide Named, DecisionIdOf;
  }

  // ---- Percentages

  /** `p` is the whole percentage nearest to n/d, halves going up. */
  ghost predicate NearestPercent(p: int, n: nat, d: nat) {
    if d == 0 then p == 0 else (2 * p - 1) * d <= 200 * n < (2 * p + 1) * d
  }

  lemma PercentageIsNearest(n: nat, d: nat)
    ensures NearestPercent(Percentage(n, d), n, d)
  {
    if d != 0 {
      var p, y := Percentage(n, d), 200.0 * (n as real / d as real);
      HundredsRound(n, d);
      TwoHundredTimes(n, d);
      TimesKeepsOrder((2 * p - 1) as real, y, d as real);
      StrictlyToo(y, (2 * p + 1) as real, d as real);
      WholeProduct(2 * p - 1, d);
      WholeProduct(2 * p + 1, d);
    }
  }

  lemma HundredsRound(n: nat, d: nat)
    requires d != 0
    ensures var p, y := Percentage(n, d), 200.0 * (n as real / d as real); (2 * p - 1) as real <= y < (2 * p + 1) as real
  {
    var x, p := n as real / d as real, Percentage(n, d);
    assert p as real <= x * 100.0 + 0.5 < p as real + 1.0;
  }

  lemma TwoHundredTimes(n: nat, d: nat)
    requires d != 0
    ensures 200.0 * (n as real / d as real) * d as real == (200 * n) as real
  {
    var x := n as real / d as real;
    assert x * d as real == n as real;
    Regrouped(x, d as real);
  }

  lemma Regrouped(x: real, d: real)
    ensures 200.0 * x * d == 200.0 * (x * d)
  {
  }

  lemma WholeProduct(k: int, d: nat)
    ensures k as real * d as real == (k * d) as real
  {
  }

  lemma TimesKeepsOrder(a: real, b: real, d: real)
    requires a <= b && d > 0.0
    ensures a * d <= b * d
  {
  }

  lemma StrictlyToo(a: real, b: real, d: real)
    requires a < b && d > 0.0
    ensures a * d < b * d
  {
  }

  // ---- Certification

  ghost function PublishedFor(t: Tables, account: string, p: string): set<string> {
    set k | k in t.publications && t.publications[k].account == account && t.publications[k].project == p
  }

  ghost function PublishedBy(t: Tables, account: string, s: string): set<string> {
    set k | k in t.publications && t.publications[k].account == account && t.publications[k].aiSystem == s
  }

  ghost predicate NewestRun(t: Tables, runs: set<string>, r: string) {
    r in runs && r in t.db.runs && forall q | q in runs && q in t.db.runs :: t.db.runs[q].createdAt <= t.db.runs[r].createdAt
  }

  ghost predicate NewestPublication(t: Tables, published: set<string>, k: string) {
    && k in published && k in t.publications
    && forall q | q in published && q in t.publications :: t.publications[q].issuedAt <= t.publications[k].issuedAt
  }

  ghost predicate Allows(t: Tables, d: string) { d in t.db.certificates && t.db.certificates[d].actionAllowed }

  /** The newest publication decides, "valid" if it allows action, else "blocked"; without one
      the certificate of the newest run does, "pending" until there is one; without runs
      "uncertified". */
  ghost predicate StateSays(t: Tables, runs: set<string>, published: set<string>, state: string) {
    && (published != {} ==>
          exists k :: NewestPublication(t, published, k) && state == if t.publications[k].actionAllowed then "valid" else "blocked")
    && (published == {} && runs != {} ==>
          exists r :: NewestRun(t, runs, r)
            && (var d := t.db.runs[r].decision;
                && (d !in t.db.certificates ==> state == "pending")
                && (d in t.db.certificates ==> state == if Allows(t, d) then "valid" else "blocked")))
    && (published == {} && runs == {} ==> state == "uncertified")
  }

  lemma StateIsSaid(t: Tables, account: string, runs: set<string>, published: set<string>, state: string)
    requires runs <= t.db.runs.Keys && published <= t.publications.Keys
    requires CertificationOk(t, Clocks(GaugeOf(t.db).time, ReadingOf(t, account).issued), runs, published, state)
    ensures StateSays(t, runs, published, state)
  {
    hide IsLatest, NewestRun, NewestPublication, GaugeOf, ReadingOf, PublicationState, RunState, Allows;
    if published != {} {
      var k :| k in published && IsLatest(ReadingOf(t, account).issued, published, k) && state == PublicationState(t.publications, k);
      NewestPublished(t, account, published, k);
      PublicationStateIs(t, k);
    } else if runs != {} {
      var r :| r in runs && IsLatest(GaugeOf(t.db).time, runs, r) && state == RunState(t.db, r);
      NewestOfRuns(t, runs, r);
      RunStateIs(t, r);
    }
  }

  lemma PublicationStateIs(t: Tables, k: string)
    requires k in t.publications
    ensures PublicationState(t.publications, k) == if t.publications[k].actionAllowed then "valid" else "blocked"
  {
  }

  lemma RunStateIs(t: Tables, r: string)
    requires r in t.db.runs
    ensures var d, state := t.db.runs[r].decision, RunState(t.db, r);
            && (d !in t.db.certificates ==> state == "pending")
            && (d in t.db.certificates ==> state == if Allows(t, d) then "valid" else "blocked")
  {
  }

  lemma NewestPublished(t: Tables, account: string, published: set<string>, k: string)
    requires published <= t.publications.Keys && IsLatest(ReadingOf(t, account).issued, published, k)
    ensures NewestPublication(t, published, k)
  {
    var issued := ReadingOf(t, account).issued;
    forall q | q in published ensures t.publications[q].issuedAt <= t.publications[k].issuedAt {
      assert issued(q) <= issued(k);
    }
  }

  lemma NewestOfRuns(t: Tables, runs: set<string>, r: string)
    requires runs <= t.db.runs.Keys && IsLatest(GaugeOf(t.db).time, runs, r)
    ensures NewestRun(t, runs, r)
  {
    var time := GaugeOf(t.db).time;
    forall q | q in runs ensures t.db.runs[q].createdAt <= t.db.runs[r].createdAt {
      assert time(q) <= time(r);
    }
  }

  // ---- Project rows

  ghost function ConnectionsAt(t: Tables, account: string, p: string): set<string> {
    set k | k in t.connections && t.connections[k].account == account && t.connections[k].project == p
  }

  ghost predicate RowCounts(t: Tables, account: string, p: string, row: ProjectRow)
    requires p in t.projects
  {
    var runs := RunsIn(t, p);
    && row.name == t.projects[p].name && row.runs == |runs|
    && (exists k :: Knows(t.db, runs, k) && row.claims == k.claims && row.supported == k.supported
                    && row.evidence == k.evidence && row.open == k.open)
    && row.systems == |set s | s in t.systems && t.systems[s].account == account && t.systems[s].project == p|
    && row.reports == |set k | k in t.reports && t.reports[k].account == account && t.reports[k].project == p|
    && NearestPercent(row.coverage, row.supported, row.claims)
  }

  /** An active connection wins, else one of the project's connections is shown. */
  ghost predicate RowConnects(t: Tables, account: string, p: string, row: ProjectRow) {
    var own := ConnectionsAt(t, account, p);
    && (row.connection == "active" <==> exists k :: k in own && t.connections[k].status == "active")
    && (own == {} ==> row.connection == "disconnected")
    && (own != {} ==> exists k :: k in own && row.connection == t.connections[k].status)
  }

  /** The newest run is named, and the last activity is its creation or the receipt of the
      newest publication, whichever is later. */
  ghost predicate RowMoves(t: Tables, account: string, p: string, row: ProjectRow) {
    var runs, published := RunsIn(t, p), PublishedFor(t, account, p);
    && StateSays(t, runs, published, row.certification)
    && (runs == {} ==> row.latestRun == "") && (runs != {} ==> NewestRun(t, runs, row.latestRun))
    && LastMoved(t, published, if runs == {} then None else Some(t.db.runs[row.latestRun].createdAt), row)
  }

  ghost predicate LastMoved(t: Tables, published: set<string>, created: Option<int>, row: ProjectRow) {
    && (published == {} ==> row.lastActivity == created)
    && (published != {} ==>
          exists k :: NewestPublication(t, published, k)
            && row.certification == (if t.publications[k].actionAllowed then "valid" else "blocked")
            && row.lastActivity.Some?
            && (var received := t.publications[k].receivedAt;
                row.lastActivity.value == if created.Some? && created.value > received then created.value else received))
  }

  lemma RowIsCounted(t: Tables, account: string, p: string, row: ProjectRow)
    requires p in t.projects && ProjectOk(t, account, GaugeOf(t.db), ReadingOf(t, account), p, row)
    ensures RowCounts(t, account, p, row)
  {
    hide CertificationOk, ActivityOk, ConnectionOk, IsLatest, Knows, KnowledgeOf, NearestPercent, Percentage;
    var runs := RunsIn(t, p);
    assert RunsOfProject(t.db, p) == runs;
    KnowledgeKnows(t.db, runs);
    PercentageIsNearest(row.supported, row.claims);
    assert Knows(t.db, runs, KnowledgeOf(t.db, runs));
    assert SystemsAt(t, account, p, t.systems.Keys) == (set s | s in t.systems && t.systems[s].account == account && t.systems[s].project == p);
    assert ReportsAt(t, account, p, t.reports.Keys) == (set k | k in t.reports && t.reports[k].account == account && t.reports[k].project == p);
  }

  lemma RowIsConnected(t: Tables, account: string, p: string, row: ProjectRow)
    requires ConnectionOk(t, account, p, t.connections.Keys, row.connection)
    ensures RowConnects(t, account, p, row)
  {
    assert ConnectionsOf(t, account, p, t.connections.Keys) == ConnectionsAt(t, account, p);
  }

  lemma RowHasMoved(t: Tables, account: string, p: string, row: ProjectRow)
    requires p in t.projects && ProjectOk(t, account, GaugeOf(t.db), ReadingOf(t, account), p, row)
    ensures RowMoves(t, account, p, row)
  {
    hide ConnectionOk, IsLatest, StateSays, CertificationOk, ActivityOk, Percentage, KnowledgeOf, LastMoved, GaugeOf, ReadingOf;
    var runs, published := RunsIn(t, p), PublishedFor(t, account, p);
    assert RunsOfProject(t.db, p) == runs;
    PublicationsRead(t, account, p);
    StateIsSaid(t, account, runs, published, row.certification);
    if runs != {} {
      NewestOfRuns(t, runs, row.latestRun);
      assert row.latestRun in runs;
      TimeOfRun(t, row.latestRun);
    }
    ActivityIsSaid(t, account, published, if runs == {} then None else Some(t.db.runs[row.latestRun].createdAt), row);
  }

  lemma PublicationsRead(t: Tables, account: string, p: string)
    ensures ReadingOf(t, account).byProject(t.publications.Keys)(p) == PublishedFor(t, account, p)
  {
  }

  lemma TimeOfRun(t: Tables, r: string)
    requires r in t.db.runs
    ensures GaugeOf(t.db).time(r) == t.db.runs[r].createdAt
  {
  }

  lemma ActivityIsSaid(t: Tables, account: string, published: set<string>, created: Option<int>, row: ProjectRow)
    requires published <= t.publications.Keys
    requires ActivityOk(t, Clocks(GaugeOf(t.db).time, ReadingOf(t, account).issued), published, created, row)
    ensures LastMoved(t, published, created, row)
  {
    hide IsLatest, NewestPublication, GaugeOf, ReadingOf, PublicationState;
    if published != {} {
      var k :| k in published && k in t.publications && IsLatest(ReadingOf(t, account).issued, published, k)
               && row.certification == PublicationState(t.publications, k)
               && row.lastActivity == Later(created, Some(t.publications[k].receivedAt));
      NewestPublished(t, account, published, k);
      PublicationStateIs(t, k);
    }
  }

  // ---- Certificate lines

  /** The line of a shown run's own certificate. */
  ghost predicate OwnLineOf(t: Tables, account: string, r: string, x: CertificateLine) {
    && r in RunsSeen(t, account) && Named(t.db, r) in t.db.certificates
    && (var run, c := t.db.runs[r], t.db.certificates[Named(t.db, r)];
        && x.decision == Named(t.db, r) && x.run == run.id && x.project == run.project && x.system == run.aiSystem
        && x.standing == Judged(c.verdict) && x.allowed == c.actionAllowed && x.policyVersion == c.policyVersion
        && x.digest == c.digest && x.issuedAt == c.issuedAt && x.receivedAt == c.issuedAt
        && x.projectName == (if OwnProject(t, account, run.project) then t.projects[run.project].name else "")
        && x.systemName == (if run.aiSystem in t.systems && t.systems[run.aiSystem].account == account then t.systems[run.aiSystem].name else ""))
  }

  /** The line of a publication of the account. */
  ghost predicate PublishedLineOf(t: Tables, account: string, k: string, x: CertificateLine) {
    && k in t.publications && t.publications[k].account == account
    && (var p := t.publications[k];
        && x.decision == p.decision && x.run == p.run && x.project == p.project && x.system == p.aiSystem
        && x.standing == Standing.Reported(p.status) && x.allowed == p.actionAllowed && x.policyVersion == p.policyVersion
        && x.digest == p.digest && x.issuedAt == p.issuedAt && x.receivedAt == p.receivedAt
        && x.projectName == (if OwnProject(t, account, p.project) then t.projects[p.project].name else "")
        && x.systemName == (if p.aiSystem in t.systems && t.systems[p.aiSystem].account == account then t.systems[p.aiSystem].name else ""))
  }

  ghost function OwnLinesLike(t: Tables, account: string, x: CertificateLine): set<string> {
    set r | r in t.db.runs && OwnLineOf(t, account, r, x)
  }

  ghost function PublishedLinesLike(t: Tables, account: string, x: CertificateLine): set<string> {
    set k | k in t.publications && PublishedLineOf(t, account, k, x)
  }

  lemma LinesAreSaid(t: Tables, account: string, lines: seq<CertificateLine>, x: CertificateLine)
    requires CertificatesOk(t, account, ReadingOf(t, account), lines)
    ensures multiset(lines)[x] == |OwnLinesLike(t, account, x)| + |PublishedLinesLike(t, account, x)|
  {
    hide CertifiedIn, PublicationsOf, Like, OwnLinesLike, PublishedLinesLike;
    OwnLinesAgree(t, account, x);
    PublishedLinesAgree(t, account, x);
  }

  lemma OwnLinesAgree(t: Tables, account: string, x: CertificateLine)
    ensures Like(CertifiedIn(t.db, Shown(t, account)), RunLines(t, Listed(t, account), ListedSystems(t, account)), x)
            == OwnLinesLike(t, account, x)
  {
    var listed, systems := Listed(t, account), ListedSystems(t, account);
    forall r ensures r in Like(CertifiedIn(t.db, Shown(t, account)), RunLines(t, listed, systems), x) <==> r in OwnLinesLike(t, account, x) {
      if r in t.db.runs {
        NamedDecision(t.db, r);
        OneOwnLine(t, account, r, x);
      }
    }
  }

  lemma OneOwnLine(t: Tables, account: string, r: string, x: CertificateLine)
    requires r in t.db.runs && DecisionIdOf(t.db, r) == Named(t.db, r)
    ensures r in CertifiedIn(t.db, Shown(t, account)) && RunLines(t, Listed(t, account), ListedSystems(t, account))(r) == x
            <==> OwnLineOf(t, account, r, x)
  {
    hide DecisionIdOf, Named;
  }

  lemma PublishedLinesAgree(t: Tables, account: string, x: CertificateLine)
    ensures Like(PublicationsOf(t, account, t.publications.Keys), PublishedLines(t, Listed(t, account), ListedSystems(t, account)), x)
            == PublishedLinesLike(t, account, x)
  {
  }

  // ---- The whole board

  ghost function SystemRuns(t: Tables, account: string, s: string): set<string> {
    set r | r in RunsSeen(t, account) && r in t.db.runs && t.db.runs[r].aiSystem == s
  }

  ghost predicate BoardSays(t: Tables, account: string, b: Board) {
    && (forall p :: p in b.projects <==> OwnProject(t, account, p))
    && (forall p | p in b.projects :: RowCounts(t, account, p, b.projects[p]) && RowConnects(t, account, p, b.projects[p])
                                      && RowMoves(t, account, p, b.projects[p]))
    && (forall s :: s in b.systems <==> s in t.systems && t.systems[s].account == account)
    && (forall s | s in b.systems :: StateSays(t, SystemRuns(t, account, s), PublishedBy(t, account, s), b.systems[s]))
    && Knows(t.db, RunsSeen(t, account), b.knowledge)
    && (forall x: CertificateLine :: multiset(b.certificates)[x] == |OwnLinesLike(t, account, x)| + |PublishedLinesLike(t, account, x)|)
    && (forall c :: c in b.reportsOf <==> c in t.connections && t.connections[c].account == account)
    && (forall c | c in b.reportsOf ::
          b.reportsOf[c] == |set k | k in t.reports && t.reports[k].account == account && t.reports[k].connection == c|)
  }

  ghost predicate MetricsSay(t: Tables, account: string, b: Board) {
    var m, seen := b.metrics, RunsSeen(t, account);
    && m.projects == |set p | p in t.projects && t.projects[p].account == account|
    && m.systems == |set s | s in t.systems && t.systems[s].account == account|
    && m.reports == |set k | k in t.reports && t.reports[k].account == account|
    && m.connected == |set p | p in b.projects && b.projects[p].connection == "active"|
    && m.valid == |set r | r in seen && r in t.db.runs && Allows(t, Named(t.db, r))|
                  + |set k | k in t.publications && t.publications[k].account == account && t.publications[k].actionAllowed|
    && m.attention == b.knowledge.contradicted + b.knowledge.open + b.knowledge.stale
                      + |set s | s in b.systems && b.systems[s] != "valid"|
    && NearestPercent(m.coverage, b.knowledge.supported, b.knowledge.claims)
  }

  lemma RowsAreSaid(t: Tables, account: string, b: Board)
    requires BoardOk(t, account, GaugeOf(t.db), ReadingOf(t, account), b)
    ensures forall p :: p in b.projects <==> OwnProject(t, account, p)
    ensures forall p | p in b.projects :: RowCounts(t, account, p, b.projects[p]) && RowConnects(t, account, p, b.projects[p])
                                          && RowMoves(t, account, p, b.projects[p])
  {
    hide ProjectOk, CertificatesOk, SystemsShown, ReportedBy, RowCounts, RowConnects, RowMoves, ReadingOf, GaugeOf;
    forall p | p in b.projects
      ensures p in t.projects && RowCounts(t, account, p, b.projects[p]) && RowConnects(t, account, p, b.projects[p])
              && RowMoves(t, account, p, b.projects[p])
    {
      assert ProjectOk(t, account, GaugeOf(t.db), ReadingOf(t, account), p, b.projects[p]);
      RowIsCounted(t, account, p, b.projects[p]);
      ShownConnection(t, account, p, b.projects[p]);
      RowIsConnected(t, account, p, b.projects[p]);
      RowHasMoved(t, account, p, b.projects[p]);
    }
  }

  lemma ShownConnection(t: Tables, account: string, p: string, row: ProjectRow)
    requires p in t.projects && ProjectOk(t, account, GaugeOf(t.db), ReadingOf(t, account), p, row)
    ensures ConnectionOk(t, account, p, t.connections.Keys, row.connection)
  {
  }

  lemma SystemsAreSaid(t: Tables, account: string, b: Board)
    requires BoardOk(t, account, GaugeOf(t.db), ReadingOf(t, account), b)
    ensures forall s :: s in b.systems <==> s in t.systems && t.systems[s].account == account
    ensures forall s | s in b.systems :: StateSays(t, SystemRuns(t, account, s), PublishedBy(t, account, s), b.systems[s])
  {
    hide ProjectsShown, CertificatesOk, ReportedBy, StateSays, CertificationOk, ReadingOf, GaugeOf, SystemRuns, ShownRunsOf, PublishedBy;
    forall s | s in b.systems ensures StateSays(t, SystemRuns(t, account, s), PublishedBy(t, account, s), b.systems[s]) {
      SystemIsSaid(t, account, s, b.systems[s]);
    }
  }

  lemma SystemIsSaid(t: Tables, account: string, s: string, state: string)
    requires CertificationOk(t, Clocks(GaugeOf(t.db).time, ReadingOf(t, account).issued), ShownRunsOf(t, account, s),
                             ReadingOf(t, account).bySystem(t.publications.Keys)(s), state)
    ensures StateSays(t, SystemRuns(t, account, s), PublishedBy(t, account, s), state)
  {
    hide StateSays, CertificationOk;
    assert ShownRunsOf(t, account, s) == SystemRuns(t, account, s);
    assert ReadingOf(t, account).bySystem(t.publications.Keys)(s) == PublishedBy(t, account, s);
    StateIsSaid(t, account, SystemRuns(t, account, s), PublishedBy(t, account, s), state);
  }

  lemma MetricsAreSaid(t: Tables, account: string, b: Board)
    requires BoardOk(t, account, GaugeOf(t.db), ReadingOf(t, account), b)
    ensures MetricsSay(t, account, b)
  {
    hide ProjectsShown, SystemsShown, CertificatesOk, ReportedBy, NearestPercent, Percentage, KnowledgeOf, Listed, ListedSystems, ReportsOf,
         Connected, NotValid, AllowedIn, AllowedOf, Allows, Named, Shown, RunsSeen;
    PercentageIsNearest(b.knowledge.supported, b.knowledge.claims);
    AllowedSets(t, account);
    ListedSets(t, account);
    StateSets(b);
  }

  lemma ListedSets(t: Tables, account: string)
    ensures Listed(t, account) == (set p | p in t.projects && t.projects[p].account == account)
    ensures ListedSystems(t, account) == (set s | s in t.systems && t.systems[s].account == account)
    ensures ReportsOf(t, account, t.reports.Keys) == (set k | k in t.reports && t.reports[k].account == account)
  {
  }

  lemma StateSets(b: Board)
    ensures Connected(b.projects) == (set p | p in b.projects && b.projects[p].connection == "active")
    ensures NotValid(b.systems) == (set s | s in b.systems && b.systems[s] != "valid")
  {
  }

  /** Everything every dashboard shows. */
  lemma DashboardSays(t: Tables, account: string, b: Board)
    requires BoardOk(t, account, GaugeOf(t.db), ReadingOf(t, account), b)
    ensures BoardSays(t, account, b) && MetricsSay(t, account, b)
  {
    hide ProjectsShown, SystemsShown, CertificatesOk, MetricsSay, ReadingOf, GaugeOf, RowCounts, RowConnects, RowMoves, StateSays, Knows;
    RowsAreSaid(t, account, b);
    SystemsAreSaid(t, account, b);
    MetricsAreSaid(t, account, b);
    TotalsAreSaid(t, account, b);
    forall x: CertificateLine ensures multiset(b.certificates)[x] == |OwnLinesLike(t, account, x)| + |PublishedLinesLike(t, account, x)| {
      LinesAreSaid(t, account, b.certificates, x);
    }
  }

  lemma TotalsAreSaid(t: Tables, account: string, b: Board)
    requires BoardOk(t, account, GaugeOf(t.db), ReadingOf(t, account), b)
    ensures Knows(t.db, RunsSeen(t, account), b.knowledge)
    ensures forall c :: c in b.reportsOf <==> c in t.connections && t.connections[c].account == account
    ensures forall c | c in b.reportsOf ::
              b.reportsOf[c] == |set k | k in t.reports && t.reports[k].account == account && t.reports[k].connection == c|
  {
    hide ProjectsShown, SystemsShown, CertificatesOk, Knows, KnowledgeOf, ReportedBy, ReportsBy, RunsSeen, Shown;
    SeenIsShown(t, account);
    KnowledgeKnows(t.db, RunsSeen(t, account));
    ReportsAreCounted(t, account, b.reportsOf);
  }

  lemma SeenIsShown(t: Tables, account: string)
    ensures Shown(t, account) == RunsSeen(t, account) && RunsSeen(t, account) <= t.db.runs.Keys
  {
  }

  lemma ReportsAreCounted(t: Tables, account: string, reportsOf: map<string, nat>)
    requires ReportedBy(t, account, reportsOf, t.reports.Keys)
    ensures forall c | c in reportsOf ::
              reportsOf[c] == |set k | k in t.reports && t.reports[k].account == account && t.reports[k].connection == c|
  {
    forall c | c in reportsOf
      ensures reportsOf[c] == |set k | k in t.reports && t.reports[k].account == account && t.reports[k].connection == c|
    {
      assert ReportsBy(t, account, c, t.reports.Keys) == (set k | k in t.reports && t.reports[k].account == account && t.reports[k].connection == c);
    }
  }

  lemma AllowedSets(t: Tables, account: string)
    ensures AllowedIn(t.db, Shown(t, account)) == (set r | r in RunsSeen(t, account) && r in t.db.runs && Allows(t, Named(t.db, r)))
    ensures AllowedOf(t, account, t.publications.Keys)
            == (set k | k in t.publications && t.publications[k].account == account && t.publications[k].actionAllowed)
  {
    forall r | r in t.db.runs ensures DecisionIdOf(t.db, r) == Named(t.db, r) {
      NamedDecision(t.db, r);
    }
  }
}
