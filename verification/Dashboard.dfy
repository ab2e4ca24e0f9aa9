/** `GetAccountDashboard` as a whole: publications, certification states and metrics
    (apps/control-plane/internal/store/memory_portfolio.go). */
module Dashboard {
  import opened Text
  import opened Store
  import opened Portfolio
  import opened DashboardCounts
  import opened DashboardRows
  import opened DashboardRuns

  // ---- Publications

  ghost predicate Dated(issued: string -> int, publications: map<string, Publication>) {
    forall k | k in publications :: issued(k) == publications[k].issuedAt
  }

  function PublicationsFor(t: Tables, account: string, p: string, done: set<string>): set<string> {
    set k | k in done && k in t.publications && t.publications[k].account == account && t.publications[k].project == p
  }

  function PublicationsBy(t: Tables, account: string, s: string, done: set<string>): set<string> {
    set k | k in done && k in t.publications && t.publications[k].account == account && t.publications[k].aiSystem == s
  }

  function ForProjects(t: Tables, account: string, done: set<string>): string -> set<string> { p => PublicationsFor(t, account, p, done) }
  function BySystems(t: Tables, account: string, done: set<string>): string -> set<string> { s => PublicationsBy(t, account, s, done) }

  function PublicationsOf(t: Tables, account: string, done: set<string>): set<string> {
    set k | k in done && k in t.publications && t.publications[k].account == account
  }

  function AllowedOf(t: Tables, account: string, done: set<string>): set<string> {
    set k | k in done && k in t.publications && t.publications[k].account == account && t.publications[k].actionAllowed
  }

  datatype Published = Published(byProject: map<string, string>, bySystem: map<string, string>, lines: seq<CertificateLine>)

  /** What is read of publications: their dates, those of a project, of a system and of the
      account, and how many allow action. */
  datatype Reading = Reading(
    issued: string -> int, byProject: set<string> -> string -> set<string>, bySystem: set<string> -> string -> set<string>,
    own: set<string> -> set<string>, allowed: set<string> -> nat)

  /** The line of a publication. */
  function PublishedLine(t: Tables, listed: set<string>, systems: set<string>, p: Publication): CertificateLine {
    CertificateLine(p.decision, p.run, p.project, ProjectName(t, listed, p.project), p.aiSystem, SystemName(t, systems, p.aiSystem),
                    Reported(p.status), p.actionAllowed, p.policyVersion, p.issuedAt, p.digest, p.receivedAt)
  }

  function PublishedLines(t: Tables, listed: set<string>, systems: set<string>): string -> CertificateLine {
    k => if k in t.publications then PublishedLine(t, listed, systems, t.publications[k]) else NO_LINE
  }

  ghost predicate PublishedOk(t: Tables, g: Reading, projects: set<string>, systems: set<string>, before: seq<CertificateLine>,
                              done: set<string>, p: Published) {
    && LatestOk(g.issued, projects, g.byProject(done), p.byProject)
    && LatestOk(g.issued, systems, g.bySystem(done), p.bySystem)
    && (forall x | x in p.byProject :: p.byProject[x] in t.publications)
    && (forall x | x in p.bySystem :: p.bySystem[x] in t.publications)
    && LinesGrown(p.lines, before, g.own(done), g.allowed(done), PublishedLines(t, projects, systems))
  }

  /** One line for each key was added, `allowed` of them of actions allowed. */
  ghost predicate LinesGrown(lines: seq<CertificateLine>, before: seq<CertificateLine>, keys: set<string>, allowed: nat,
                             line: string -> CertificateLine) {
    && LinesAre(lines, before, keys, line)
    && |lines| == |before| + |keys| && AllowedCount(lines) == AllowedCount(before) + allowed
  }

  lemma LinesGrow(lines: seq<CertificateLine>, before: seq<CertificateLine>, keys: set<string>, allowed: nat,
                  line: string -> CertificateLine, k: string)
    requires LinesGrown(lines, before, keys, allowed, line) && k !in keys
    ensures LinesGrown(lines + [line(k)], before, keys + {k}, allowed + if line(k).allowed then 1 else 0, line)
  {
    hide LinesAre, AllowedCount;
    OneMoreLine(lines, line(k));
    LinesOneMore(lines, before, keys, line, k);
  }

  /** `k` joins the items of `key`, if at all. */
  ghost predicate TakesOne(of: string -> set<string>, more: string -> set<string>, joins: bool, key: string, k: string) {
    forall x :: more(x) == if joins && x == key then of(x) + {k} else of(x)
  }

  /** One more publication changes the reading as it should. */
  ghost predicate ReadsOneMore(g: Reading, t: Tables, account: string, done: set<string>, k: string)
    requires k in t.publications
  {
    var p := t.publications[k];
    var own := p.account == account;
    && TakesOne(g.byProject(done), g.byProject(done + {k}), own, p.project, k)
    && TakesOne(g.bySystem(done), g.bySystem(done + {k}), own, p.aiSystem, k)
    && g.own(done + {k}) == (if own then g.own(done) + {k} else g.own(done)) && k !in g.own(done)
    && g.allowed(done + {k}) == g.allowed(done) + if own && p.actionAllowed then 1 else 0
  }

  ghost predicate Reads(g: Reading, t: Tables, account: string) {
    && Dated(g.issued, t.publications)
    && (forall x :: g.byProject({})(x) == {} && g.bySystem({})(x) == {}) && g.own({}) == {} && g.allowed({}) == 0
    && forall done, k | k in t.publications && k !in done :: ReadsOneMore(g, t, account, done, k)
  }

  function ReadingOf(t: Tables, account: string): Reading {
    Reading(k => if k in t.publications then t.publications[k].issuedAt else 0,
            (done: set<string>) => ForProjects(t, account, done), (done: set<string>) => BySystems(t, account, done),
            done => PublicationsOf(t, account, done), done => |AllowedOf(t, account, done)|)
  }

  lemma ReadingReads(t: Tables, account: string)
    ensures Reads(ReadingOf(t, account), t, account)
  {
    var g := ReadingOf(t, account);
    assert PublicationsOf(t, account, {}) == {} && AllowedOf(t, account, {}) == {};
    forall x ensures g.byProject({})(x) == {} && g.bySystem({})(x) == {} {
      assert PublicationsFor(t, account, x, {}) == {} && PublicationsBy(t, account, x, {}) == {};
    }
    forall done, k | k in t.publications && k !in done ensures ReadsOneMore(g, t, account, done, k) {
      ReadingOneMore(t, account, done, k);
    }
  }

  lemma ReadingOneMore(t: Tables, account: string, done: set<string>, k: string)
    requires k in t.publications && k !in done
    ensures ReadsOneMore(ReadingOf(t, account), t, account, done, k)
  {
    hide TakesOne, ForProjects, BySystems, PublicationsOf, AllowedOf;
    OneMoreAllowedOf(t, account, done, k);
    OneMoreOf(t, account, done, k);
    OneMoreFor(t, account, done, k);
    OneMoreBy(t, account, done, k);
  }

  lemma OneMoreFor(t: Tables, account: string, done: set<string>, k: string)
    requires k in t.publications && k !in done
    ensures TakesOne(ForProjects(t, account, done), ForProjects(t, account, done + {k}), t.publications[k].account == account,
                     t.publications[k].project, k)
  {
    forall x ensures PublicationsFor(t, account, x, done + {k})
                     == PublicationsFor(t, account, x, done)
                        + (if t.publications[k].account == account && t.publications[k].project == x then {k} else {}) {
    }
  }

  lemma OneMoreBy(t: Tables, account: string, done: set<string>, k: string)
    requires k in t.publications && k !in done
    ensures TakesOne(BySystems(t, account, done), BySystems(t, account, done + {k}), t.publications[k].account == account,
                     t.publications[k].aiSystem, k)
  {
    forall x ensures PublicationsBy(t, account, x, done + {k})
                     == PublicationsBy(t, account, x, done)
                        + (if t.publications[k].account == account && t.publications[k].aiSystem == x then {k} else {}) {
    }
  }

  lemma OneMoreOf(t: Tables, account: string, done: set<string>, k: string)
    requires k in t.publications && k !in done
    ensures PublicationsOf(t, account, done + {k})
            == if t.publications[k].account == account then PublicationsOf(t, account, done) + {k} else PublicationsOf(t, account, done)
    ensures k !in PublicationsOf(t, account, done)
  {
  }

  lemma OneMoreAllowedOf(t: Tables, account: string, done: set<string>, k: string)
    requires k in t.publications && k !in done
    ensures |AllowedOf(t, account, done + {k})|
            == |AllowedOf(t, account, done)|
               + if t.publications[k].account == account && t.publications[k].actionAllowed then 1 else 0
  {
    assert AllowedOf(t, account, done + {k})
           == AllowedOf(t, account, done)
              + if t.publications[k].account == account && t.publications[k].actionAllowed then {k} else {};
  }

  /** The guarded update of one of the two tables of latest publications. */
  method Advance(t: Tables, ghost issued: string -> int, keys: set<string>, ghost of: string -> set<string>,
                 ghost more: string -> set<string>, latest: map<string, string>, key: string, k: string)
      returns (next: map<string, string>)
    requires Dated(issued, t.publications) && LatestOk(issued, keys, of, latest) && k in t.publications
    requires forall p | p in latest :: latest[p] in t.publications
    requires TakesOne(of, more, true, key, k)
    ensures LatestOk(issued, keys, more, next) && forall p | p in next :: next[p] in t.publications
  {
    next := latest;
    if key in keys {
      var newer := key in latest && t.publications[k].issuedAt > t.publications[latest[key]].issuedAt;
      next := AddLatest(issued, keys, of, more, latest, key, k, newer);
    } else {
      LatestUnmoved(issued, keys, of, more, latest);
    }
  }

  method AddPublication(t: Tables, account: string, ghost g: Reading, projects: set<string>, systems: set<string>,
                        ghost before: seq<CertificateLine>, ghost done: set<string>, p: Published, k: string) returns (next: Published)
    requires PublishedOk(t, g, projects, systems, before, done, p) && k in t.publications && Dated(g.issued, t.publications)
    requires ReadsOneMore(g, t, account, done, k)
    ensures PublishedOk(t, g, projects, systems, before, done + {k}, next)
  {
    hide LinesGrown, LatestOk, Dated, TakesOne;
    var publication := t.publications[k];
    next := p;
    if publication.account == account {
      var byProject := Advance(t, g.issued, projects, g.byProject(done), g.byProject(done + {k}), p.byProject, publication.project, k);
      var bySystem := Advance(t, g.issued, systems, g.bySystem(done), g.bySystem(done + {k}), p.bySystem, publication.aiSystem, k);
      var line := PublishedLine(t, projects, systems, publication);
      LinesGrow(p.lines, before, g.own(done), g.allowed(done), PublishedLines(t, projects, systems), k);
      next := Published(byProject, bySystem, p.lines + [line]);
    } else {
      NotTaken(g.issued, projects, g.byProject(done), g.byProject(done + {k}), p.byProject, publication.project, k);
      NotTaken(g.issued, systems, g.bySystem(done), g.bySystem(done + {k}), p.bySystem, publication.aiSystem, k);
    }
  }

  lemma NotTaken(issued: string -> int, keys: set<string>, of: string -> set<string>, more: string -> set<string>,
                 latest: map<string, string>, key: string, k: string)
    requires LatestOk(issued, keys, of, latest) && TakesOne(of, more, false, key, k)
    ensures LatestOk(issued, keys, more, latest)
  {
  }

  lemma NothingPublished(t: Tables, account: string, g: Reading, projects: set<string>, systems: set<string>, before: seq<CertificateLine>)
    requires Reads(g, t, account)
    ensures PublishedOk(t, g, projects, systems, before, {}, Published(map[], map[], before))
  {
    forall x: CertificateLine ensures |Like({}, PublishedLines(t, projects, systems), x)| == 0 {
      assert Like({}, PublishedLines(t, projects, systems), x) == {};
    }
  }

  method ReadPublications(t: Tables, account: string, ghost g: Reading, projects: set<string>, systems: set<string>,
                          before: seq<CertificateLine>) returns (p: Published)
    requires Reads(g, t, account)
    ensures PublishedOk(t, g, projects, systems, before, t.publications.Keys, p)
  {
    hide PublishedOk, ReadsOneMore, Dated;
    p := Published(map[], map[], before);
    NothingPublished(t, account, g, projects, systems, before);
    var todo := t.publications.Keys;
    ghost var done: set<string> := {};
    while todo != {}
      invariant todo <= t.publications.Keys && done == t.publications.Keys - todo
      invariant PublishedOk(t, g, projects, systems, before, done, p)
    {
      var k :| k in todo;
      assert ReadsOneMore(g, t, account, done, k);
      p := AddPublication(t, account, g, projects, systems, before, done, p, k);
      todo := todo - {k};
      done := done + {k};
    }
    assert done == t.publications.Keys;
  }

  // ---- Certification states

  function RunState(db: Db, r: string): string {
    var d := RunOf(db, r).decision;
    if d !in db.certificates then "pending" else if db.certificates[d].actionAllowed then "valid" else "blocked"
  }

  function PublicationState(publications: map<string, Publication>, k: string): string {
    if k in publications && publications[k].actionAllowed then "valid" else "blocked"
  }

  /** How runs and publications are dated. */
  datatype Clocks = Clocks(created: string -> int, issued: string -> int)

  /** The newest publication decides; without one the newest run; without either, nothing. */
  ghost predicate CertificationOk(t: Tables, clocks: Clocks, runs: set<string>, publications: set<string>, state: string) {
    if publications != {} then
      exists k | k in publications :: IsLatest(clocks.issued, publications, k) && state == PublicationState(t.publications, k)
    else if runs != {} then
      exists r | r in runs :: IsLatest(clocks.created, runs, r) && state == RunState(t.db, r)
    else state == "uncertified"
  }

  method Certify(t: Tables, ghost clocks: Clocks, ghost runs: set<string>, ghost publications: set<string>, run: Option<string>,
                 publication: Option<string>) returns (state: string)
    requires (run.Some? <==> runs != {}) && (run.Some? ==> IsLatest(clocks.created, runs, run.value))
    requires publication.Some? <==> publications != {}
    requires publication.Some? ==> IsLatest(clocks.issued, publications, publication.value)
    ensures CertificationOk(t, clocks, runs, publications, state)
    ensures publication.Some? ==> state == PublicationState(t.publications, publication.value)
  {
    state := "uncertified";
    if run.Some? {
      state := RunState(t.db, run.value);
    }
    if publication.Some? {
      state := PublicationState(t.publications, publication.value);
    }
  }

  function Lookup(m: map<string, string>, key: string): Option<string> {
    if key in m then Some(m[key]) else None
  }

  function NotValid(states: map<string, string>): set<string> {
    set s | s in states && states[s] != "valid"
  }

  lemma OneMoreState(states: map<string, string>, s: string, state: string)
    requires s !in states
    ensures |NotValid(states[s := state])| == |NotValid(states)| + if state != "valid" then 1 else 0
  {
    assert NotValid(states[s := state]) == NotValid(states) + if state != "valid" then {s} else {};
  }

  ghost predicate SystemsOk(t: Tables, clocks: Clocks, runsOf: string -> set<string>, publicationsOf: string -> set<string>,
                            states: map<string, string>) {
    forall s | s in states :: CertificationOk(t, clocks, runsOf(s), publicationsOf(s), states[s])
  }

  /** The loop over the systems. */
  method CertifySystems(t: Tables, ghost clocks: Clocks, systems: set<string>, ghost runsOf: string -> set<string>,
                        ghost publicationsOf: string -> set<string>, latestRun: map<string, string>,
                        latestPublication: map<string, string>) returns (states: map<string, string>, attention: nat)
    requires LatestOk(clocks.created, systems, runsOf, latestRun)
    requires LatestOk(clocks.issued, systems, publicationsOf, latestPublication)
    ensures states.Keys == systems && SystemsOk(t, clocks, runsOf, publicationsOf, states)
    ensures attention == |NotValid(states)|
  {
    states, attention := map[], 0;
    var todo := systems;
    while todo != {}
      invariant todo <= systems && states.Keys == systems - todo
      invariant SystemsOk(t, clocks, runsOf, publicationsOf, states) && attention == |NotValid(states)|
    {
      var s :| s in todo;
      var state := Certify(t, clocks, runsOf(s), publicationsOf(s), Lookup(latestRun, s), Lookup(latestPublication, s));
      OneMoreState(states, s, state);
      states := states[s := state];
      todo := todo - {s};
      if state != "valid" {
        attention := attention + 1;
      }
    }
  }

  // ---- Finishing the project rows

  function Later(a: Option<int>, b: Option<int>): Option<int> {
    if b.Some? && (a.None? || b.value > a.value) then b else a
  }

  function Finished(row: ProjectRow, state: string, published: Option<int>): ProjectRow {
    row.(coverage := Percentage(row.supported, row.claims), certification := state, lastActivity := Later(row.lastActivity, published))
  }

  /** The last activity is that of the runs, `created`, or the receipt of the publication that
      decides the certification, whichever is later. */
  ghost predicate ActivityOk(t: Tables, clocks: Clocks, publications: set<string>, created: Option<int>, row: ProjectRow) {
    if publications == {} then row.lastActivity == created
    else
      exists k | k in publications && k in t.publications :: IsLatest(clocks.issued, publications, k)
        && row.certification == PublicationState(t.publications, k)
        && row.lastActivity == Later(created, Some(t.publications[k].receivedAt))
  }

  ghost predicate FinishedOk(t: Tables, clocks: Clocks, runs: set<string>, publications: set<string>, before: ProjectRow, row: ProjectRow) {
    && CertificationOk(t, clocks, runs, publications, row.certification)
    && ActivityOk(t, clocks, publications, before.lastActivity, row)
    && row == before.(coverage := Percentage(before.supported, before.claims), certification := row.certification,
                      lastActivity := row.lastActivity)
  }

  /** Finishing one row. */
  method FinishRow(t: Tables, ghost clocks: Clocks, before: ProjectRow, ghost runs: set<string>, ghost publications: set<string>,
                   run: Option<string>, publication: Option<string>) returns (row: ProjectRow)
    requires (run.Some? <==> runs != {}) && (run.Some? ==> IsLatest(clocks.created, runs, run.value))
    requires publication.Some? <==> publications != {}
    requires publication.Some? ==> publication.value in t.publications && IsLatest(clocks.issued, publications, publication.value)
    ensures FinishedOk(t, clocks, runs, publications, before, row)
  {
    var state := Certify(t, clocks, runs, publications, run, publication);
    row := Finished(before, state, if publication.Some? then Some(t.publications[publication.value].receivedAt) else None);
  }

  function Connected(rows: Rows): set<string> {
    set p | p in rows && rows[p].connection == "active"
  }

  lemma OneMoreRow(rows: Rows, p: string, row: ProjectRow)
    requires p !in rows
    ensures |Connected(rows[p := row])| == |Connected(rows)| + if row.connection == "active" then 1 else 0
  {
    assert Connected(rows[p := row]) == Connected(rows) + if row.connection == "active" then {p} else {};
  }

  lemma NoneConnected()
    ensures |Connected(map[])| == 0
  {
    assert Connected(map[]) == {};
  }

  ghost predicate RowsFinished(t: Tables, clocks: Clocks, runsOf: string -> set<string>, publicationsOf: string -> set<string>,
                               before: Rows, rows: Rows) {
    forall p | p in rows :: p in before && FinishedOk(t, clocks, runsOf(p), publicationsOf(p), before[p], rows[p])
  }

  /** The loop over the projects, and the count of connected ones. */
  method FinishRows(t: Tables, ghost clocks: Clocks, before: Rows, ghost runsOf: string -> set<string>,
                    ghost publicationsOf: string -> set<string>, latestRun: map<string, string>,
                    latestPublication: map<string, string>) returns (rows: Rows, connected: nat)
    requires LatestOk(clocks.created, before.Keys, runsOf, latestRun)
    requires LatestOk(clocks.issued, before.Keys, publicationsOf, latestPublication)
    requires forall p | p in latestPublication :: latestPublication[p] in t.publications
    ensures rows.Keys == before.Keys && RowsFinished(t, clocks, runsOf, publicationsOf, before, rows)
    ensures connected == |Connected(rows)|
  {
    hide FinishedOk, Connected, IsLatest;
    rows, connected := map[], 0;
    assert |Connected(rows)| == 0 by { NoneConnected(); }
    var todo := before.Keys;
    while todo != {}
      invariant todo <= before.Keys && rows.Keys == before.Keys - todo
      invariant RowsFinished(t, clocks, runsOf, publicationsOf, before, rows) && connected == |Connected(rows)|
    {
      var p :| p in todo;
      var row := FinishRow(t, clocks, before[p], runsOf(p), publicationsOf(p), Lookup(latestRun, p), Lookup(latestPublication, p));
      OneMoreRow(rows, p, row);
      rows := rows[p := row];
      todo := todo - {p};
      if before[p].connection == "active" {
        connected := connected + 1;
      }
    }
  }

  // ---- The dashboard

  datatype Metrics = Metrics(
    projects: nat, connected: nat, systems: nat, reports: nat, valid: nat, attention: nat, coverage: int)

  datatype Board = Board(
    projects: Rows, systems: map<string, string>, reportsOf: map<string, nat>, knowledge: Knowledge,
    certificates: seq<CertificateLine>, metrics: Metrics)

  /** A row before the runs are read. */
  ghost predicate Begun(t: Tables, account: string, p: string, row: ProjectRow)
    requires p in t.projects
  {
    && row == NewRow(t.projects[p]).(connection := row.connection, systems := row.systems, reports := row.reports)
    && row.systems == |SystemsAt(t, account, p, t.systems.Keys)| && row.reports == |ReportsAt(t, account, p, t.reports.Keys)|
    && ConnectionOk(t, account, p, t.connections.Keys, row.connection)
  }

  function ConnectionIds(t: Tables, account: string): set<string> {
    set k | k in t.connections && t.connections[k].account == account
  }

  method Begin(t: Tables, account: string)
      returns (rows: Rows, reportsOf: map<string, nat>, statuses: map<string, string>, listed: nat)
    requires KeyedTables(t)
    ensures rows.Keys == Listed(t, account) && forall p | p in rows :: p in t.projects && Begun(t, account, p, rows[p])
    ensures reportsOf.Keys == ConnectionIds(t, account)
    ensures ReportedBy(t, account, reportsOf, t.reports.Keys) && listed == |ReportsOf(t, account, t.reports.Keys)|
    ensures statuses.Keys == ListedSystems(t, account)
  {
    rows := ListProjects(t, account);
    rows, reportsOf := ConnectProjects(t, account, rows);
    rows, reportsOf, listed := CountReports(t, account, rows, reportsOf);
    rows, statuses := ListSystems(t, account, rows);
  }

  /** Everything a finished project row says; `g` and `reading` are the counts behind it. */
  ghost predicate ProjectOk(t: Tables, account: string, g: Gauge, reading: Reading, p: string, row: ProjectRow)
    requires p in t.projects
  {
    var runs := RunsOfProject(t.db, p);
    && row.name == t.projects[p].name && row.runs == |runs|
    && row.claims == g.count(runs).claims && row.supported == g.count(runs).supported
    && row.evidence == g.count(runs).evidence && row.open == g.count(runs).open
    && row.systems == |SystemsAt(t, account, p, t.systems.Keys)| && row.reports == |ReportsAt(t, account, p, t.reports.Keys)|
    && row.coverage == Percentage(row.supported, row.claims)
    && ConnectionOk(t, account, p, t.connections.Keys, row.connection)
    && (runs == {} ==> row.latestRun == "") && (runs != {} ==> IsLatest(g.time, runs, row.latestRun))
    && CertificationOk(t, Clocks(g.time, reading.issued), runs, reading.byProject(t.publications.Keys)(p), row.certification)
    && ActivityOk(t, Clocks(g.time, reading.issued), reading.byProject(t.publications.Keys)(p),
                  if runs == {} then None else Some(g.time(row.latestRun)), row)
  }

  lemma FinishedRowOk(t: Tables, account: string, g: Gauge, reading: Reading, p: string, begun: ProjectRow, counted: ProjectRow,
                      row: ProjectRow)
    requires p in t.projects && Begun(t, account, p, begun)
    requires RowOk(t.db, g, RunsOfProject(t.db, p), begun, counted)
    requires FinishedOk(t, Clocks(g.time, reading.issued), RunsOfProject(t.db, p), reading.byProject(t.publications.Keys)(p), counted, row)
    ensures ProjectOk(t, account, g, reading, p, row)
  {
  }

  function ShownRunsOf(t: Tables, account: string, s: string): set<string> {
    set r | r in Shown(t, account) && t.db.runs[r].aiSystem == s
  }

  /** The listed certificates are, in some order, one line for each certified run shown and
      one for each of the account's publications. */
  ghost predicate CertificatesOk(t: Tables, account: string, reading: Reading, lines: seq<CertificateLine>) {
    var listed, systems, own := Listed(t, account), ListedSystems(t, account), reading.own(t.publications.Keys);
    var certified := CertifiedIn(t.db, Shown(t, account));
    && |lines| == |certified| + |own|
    && forall x: CertificateLine :: multiset(lines)[x] == |Like(certified, RunLines(t, listed, systems), x)|
                                                          + |Like(own, PublishedLines(t, listed, systems), x)|
  }

  lemma AllLines(t: Tables, account: string, reading: Reading, projects: set<string>, systems: set<string>, before: seq<CertificateLine>,
                 lines: seq<CertificateLine>)
    requires projects == Listed(t, account) && systems == ListedSystems(t, account)
    requires LinesOk(t, projects, systems, Shown(t, account), before)
    requires LinesGrown(lines, before, reading.own(t.publications.Keys), reading.allowed(t.publications.Keys),
                        PublishedLines(t, projects, systems))
    ensures AllowedCount(lines) == |AllowedIn(t.db, Shown(t, account))| + reading.allowed(t.publications.Keys)
    ensures CertificatesOk(t, account, reading, lines)
  {
    hide Like, CertifiedIn, Shown, AllowedIn, AllowedCount;
  }

  ghost predicate ProjectsShown(t: Tables, account: string, g: Gauge, reading: Reading, rows: Rows) {
    forall p | p in rows :: p in t.projects && ProjectOk(t, account, g, reading, p, rows[p])
  }

  ghost predicate SystemsShown(t: Tables, account: string, g: Gauge, reading: Reading, states: map<string, string>) {
    forall s | s in states ::
      CertificationOk(t, Clocks(g.time, reading.issued), ShownRunsOf(t, account, s), reading.bySystem(t.publications.Keys)(s), states[s])
  }

  /** The dashboard agrees with the counts. */
  ghost predicate BoardOk(t: Tables, account: string, g: Gauge, reading: Reading, b: Board) {
    var shown := Shown(t, account);
    && b.projects.Keys == Listed(t, account)
    && ProjectsShown(t, account, g, reading, b.projects)
    && b.systems.Keys == ListedSystems(t, account) && SystemsShown(t, account, g, reading, b.systems)
    && ReportedBy(t, account, b.reportsOf, t.reports.Keys) && b.reportsOf.Keys == ConnectionIds(t, account)
    && b.knowledge == g.count(shown)
    && CertificatesOk(t, account, reading, b.certificates)
    && b.metrics == Metrics(
         |Listed(t, account)|, |Connected(b.projects)|, |ListedSystems(t, account)|, |ReportsOf(t, account, t.reports.Keys)|,
         |AllowedIn(t.db, shown)| + reading.allowed(t.publications.Keys),
         b.knowledge.contradicted + b.knowledge.open + b.knowledge.stale + |NotValid(b.systems)|,
         Percentage(b.knowledge.supported, b.knowledge.claims))
  }

  lemma AllRunsDone(t: Tables, account: string, p: string)
    ensures ProjectDone(t.db, p, t.db.runs.Keys) == RunsOfProject(t.db, p)
    ensures SystemDone(t, account, p, t.db.runs.Keys) == ShownRunsOf(t, account, p)
    ensures Shown(t, account) * t.db.runs.Keys == Shown(t, account)
  {
  }

  lemma AllRunsLatest(t: Tables, account: string, g: Gauge, before: Rows, systems: set<string>, pass: Pass)
    requires PassOk(t, account, g, before, systems, t.db.runs.Keys, pass)
    ensures RowsCounted(t, g, before, pass.rows) && pass.knowledge == g.count(Shown(t, account))
    ensures LatestOk(g.time, before.Keys, RunsFor(t), pass.latestByProject)
    ensures LatestOk(g.time, systems, RunsBy(t, account), pass.latestBySystem)
    ensures LinesOk(t, before.Keys, systems, Shown(t, account), pass.lines)
  {
    var all := t.db.runs.Keys;
    forall p ensures ProjectsDone(t.db, all)(p) == RunsFor(t)(p) && SystemsDone(t, account, all)(p) == RunsBy(t, account)(p) {
      AllRunsDone(t, account, p);
    }
    AllRunsDone(t, account, "");
    forall p | p in pass.rows ensures RowOk(t.db, g, RunsOfProject(t.db, p), before[p], pass.rows[p]) {
      AllRunsDone(t, account, p);
    }
    LatestUnmoved(g.time, before.Keys, ProjectsDone(t.db, all), RunsFor(t), pass.latestByProject);
    LatestUnmoved(g.time, systems, SystemsDone(t, account, all), RunsBy(t, account), pass.latestBySystem);
  }

  function RunsFor(t: Tables): string -> set<string> { p => RunsOfProject(t.db, p) }
  function RunsBy(t: Tables, account: string): string -> set<string> { s => ShownRunsOf(t, account, s) }

  ghost predicate RowsCounted(t: Tables, g: Gauge, before: Rows, rows: Rows) {
    rows.Keys == before.Keys && forall p | p in rows :: RowOk(t.db, g, RunsOfProject(t.db, p), before[p], rows[p])
  }

  lemma RowsAreOk(t: Tables, account: string, g: Gauge, reading: Reading, begun: Rows, counted: Rows, rows: Rows)
    requires begun.Keys == Listed(t, account) && forall p | p in begun :: p in t.projects && Begun(t, account, p, begun[p])
    requires RowsCounted(t, g, begun, counted) && rows.Keys == counted.Keys
    requires RowsFinished(t, Clocks(g.time, reading.issued), RunsFor(t), reading.byProject(t.publications.Keys), counted, rows)
    ensures ProjectsShown(t, account, g, reading, rows)
  {
    hide ProjectOk, Begun, RowOk, FinishedOk, RunsOfProject, Listed;
    forall p | p in rows ensures p in t.projects && ProjectOk(t, account, g, reading, p, rows[p]) {
      assert RunsFor(t)(p) == RunsOfProject(t.db, p);
      FinishedRowOk(t, account, g, reading, p, begun[p], counted[p], rows[p]);
    }
  }

  lemma SystemsAreOk(t: Tables, account: string, g: Gauge, reading: Reading, states: map<string, string>)
    requires SystemsOk(t, Clocks(g.time, reading.issued), RunsBy(t, account), reading.bySystem(t.publications.Keys), states)
    ensures SystemsShown(t, account, g, reading, states)
  {
    hide CertificationOk, ShownRunsOf;
    forall s | s in states
      ensures CertificationOk(t, Clocks(g.time, reading.issued), ShownRunsOf(t, account, s), reading.bySystem(t.publications.Keys)(s), states[s])
    {
      assert RunsBy(t, account)(s) == ShownRunsOf(t, account, s);
    }
  }

  lemma SameKeys(t: Tables, g: Gauge, before: Rows, rows: Rows)
    requires RowsCounted(t, g, before, rows)
    ensures rows.Keys == before.Keys
  {
  }

  /** From the counted runs and publications to the finished board. */
  method Finish(t: Tables, account: string, ghost g: Gauge, ghost reading: Reading, ghost begun: Rows, counted: Rows, pass: Pass,
                published: Published, systems: set<string>, reportsOf: map<string, nat>, listed: nat) returns (b: Board)
    requires begun.Keys == Listed(t, account) && forall p | p in begun :: p in t.projects && Begun(t, account, p, begun[p])
    requires RowsCounted(t, g, begun, counted) && systems == ListedSystems(t, account)
    requires pass.knowledge == g.count(Shown(t, account)) && LinesOk(t, begun.Keys, systems, Shown(t, account), pass.lines)
    requires LatestOk(g.time, begun.Keys, RunsFor(t), pass.latestByProject)
    requires LatestOk(g.time, systems, RunsBy(t, account), pass.latestBySystem)
    requires PublishedOk(t, reading, begun.Keys, systems, pass.lines, t.publications.Keys, published)
    requires reportsOf.Keys == ConnectionIds(t, account)
    requires ReportedBy(t, account, reportsOf, t.reports.Keys) && listed == |ReportsOf(t, account, t.reports.Keys)|
    ensures BoardOk(t, account, g, reading, b)
  {
    hide LatestOk, RowsFinished, RowsCounted, LinesOk, LinesGrown, AllowedCount, NotValid, Connected, CertificatesOk, ProjectsShown,
         SystemsShown, ReportedBy, Shown, Listed, ListedSystems, ReportsOf, AllowedIn, Begun, SystemsOk,
         RunsBy, RunsFor, PublishedLines, Percentage;
    SameKeys(t, g, begun, counted);
    ghost var clocks := Clocks(g.time, reading.issued);
    var rows, connected := FinishRows(t, clocks, counted, RunsFor(t), reading.byProject(t.publications.Keys), pass.latestByProject,
                                      published.byProject);
    var states, invalid := CertifySystems(t, clocks, systems, RunsBy(t, account), reading.bySystem(t.publications.Keys),
                                          pass.latestBySystem, published.bySystem);
    RowsAreOk(t, account, g, reading, begun, counted, rows);
    SystemsAreOk(t, account, g, reading, states);
    AllLines(t, account, reading, begun.Keys, systems, pass.lines, published.lines);
    var valid := CountAllowed(published.lines);
    var k := pass.knowledge;
    b := Board(rows, states, reportsOf, k, published.lines,
               Metrics(|rows.Keys|, connected, |systems|, listed, valid, k.contradicted + k.open + k.stale + invalid,
                       Percentage(k.supported, k.claims)));
  }

  method CountAllowed(lines: seq<CertificateLine>) returns (n: nat)
    ensures n == AllowedCount(lines)
  {
    n := 0;
    for i := 0 to |lines|
      invariant n == AllowedCount(lines[..i])
    {
      assert lines[..i + 1][..i] == lines[..i];
      if lines[i].allowed {
        n := n + 1;
      }
    }
    assert lines[..|lines|] == lines;
  }

  lemma BegunIsUntouched(t: Tables, account: string, rows: Rows)
    requires forall p | p in rows :: p in t.projects && Begun(t, account, p, rows[p])
    ensures Untouched(rows)
  {
  }

  /** Whatever order the maps are read in, the dashboard equals the declarative counts. */
  method GetAccountDashboard(t: Tables, accounts: set<string>, account: string) returns (b: Option<Board>)
    requires KeyedTables(t)
    ensures b.Some? <==> account in accounts
    ensures b.Some? ==> BoardOk(t, account, GaugeOf(t.db), ReadingOf(t, account), b.value)
  {
    if account !in accounts {
      return None;
    }
    ghost var g, reading := GaugeOf(t.db), ReadingOf(t, account);
    KnowledgeCounts(t.db);
    ReadingReads(t, account);
    var board := Compute(t, account, g, reading);
    b := Some(board);
  }

  method Compute(t: Tables, account: string, ghost g: Gauge, ghost reading: Reading) returns (b: Board)
    requires KeyedTables(t) && Counts(g, t.db) && Reads(reading, t, account)
    ensures BoardOk(t, account, g, reading, b)
  {
    var begun, reportsOf, statuses, listed := Begin(t, account);
    BegunIsUntouched(t, account, begun);
    var systems := statuses.Keys;
    var pass := CountRuns(t, account, g, begun, systems);
    AllRunsLatest(t, account, g, begun, systems, pass);
    var published := ReadPublications(t, account, reading, begun.Keys, systems, pass.lines);
    b := Finish(t, account, g, reading, begun, pass.rows, pass, published, systems, reportsOf, listed);
  }

  // ---- What every dashboard shows

  /** Percentages lie in 0..100, the three groups of claims never exceed the claims, and the
      account's totals are those of its projects plus the runs without a listed project. */
  lemma DashboardIsSound(t: Tables, account: string, b: Board)
    requires BoardOk(t, account, GaugeOf(t.db), ReadingOf(t, account), b)
    ensures 0 <= b.metrics.coverage <= 100
    ensures forall p | p in b.projects :: 0 <= b.projects[p].coverage <= 100
    ensures b.knowledge.supported + b.knowledge.contradicted + b.knowledge.stale <= b.knowledge.claims
    ensures b.knowledge == Plus(SumOver(t.db, Listed(t, account), KnowledgeIn(t.db)), KnowledgeOf(t.db, Homeless(t, account)))
    ensures forall p | p in b.projects :: b.projects[p].claims == KnowledgeOf(t.db, RunsOfProject(t.db, p)).claims
  {
    Conservation(t, account);
    PartsStayBelow(t.db, Shown(t, account));
    PercentageIsBounded(b.knowledge.supported, b.knowledge.claims);
    forall p | p in b.projects
      ensures 0 <= b.projects[p].coverage <= 100 && b.projects[p].claims == KnowledgeOf(t.db, RunsOfProject(t.db, p)).claims
    {
      RowIsBounded(t, account, p, b.projects[p]);
    }
  }

  lemma RowIsBounded(t: Tables, account: string, p: string, row: ProjectRow)
    requires p in t.projects && ProjectOk(t, account, GaugeOf(t.db), ReadingOf(t, account), p, row)
    ensures 0 <= row.coverage <= 100 && row.claims == KnowledgeOf(t.db, RunsOfProject(t.db, p)).claims
  {
    PartsStayBelow(t.db, RunsOfProject(t.db, p));
    PercentageIsBounded(row.supported, row.claims);
  }
}
