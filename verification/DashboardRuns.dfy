/** The loop of `GetAccountDashboard` over the runs
    (apps/control-plane/internal/store/memory_portfolio.go). */
module DashboardRuns {
  import opened Text
  import opened Domain
  import opened Store
  import opened Portfolio
  import opened DashboardCounts
  import opened DashboardRows

  // ---- Which runs a counter is about, after the runs in `done`

  function ProjectDone(db: Db, p: string, done: set<string>): set<string> {
    RunsOfProject(db, p) * done
  }

  function SystemDone(t: Tables, account: string, s: string, done: set<string>): set<string> {
    set r | r in Shown(t, account) * done && t.db.runs[r].aiSystem == s
  }

  function ProjectsDone(db: Db, done: set<string>): string -> set<string> { p => ProjectDone(db, p, done) }
  function SystemsDone(t: Tables, account: string, done: set<string>): string -> set<string> { s => SystemDone(t, account, s, done) }

  /** One of the items, and none of them is later. */
  ghost predicate IsLatest(time: string -> int, items: set<string>, r: string) {
    r in items && forall q | q in items :: time(q) <= time(r)
  }

  /** What is measured of runs: how much they contribute, and when they were created. */
  datatype Gauge = Gauge(count: set<string> -> Knowledge, time: string -> int)

  ghost predicate Timed(g: Gauge, db: Db) {
    forall r | r in db.runs :: g.time(r) == db.runs[r].createdAt
  }

  // ---- Project rows

  /** How a count of runs takes in one more of them. */
  ghost predicate TakesIn(f: set<string> -> Knowledge, r: string, tally: Knowledge) {
    forall runs: set<string> | r !in runs :: f(runs + {r}) == Plus(f(runs), tally)
  }

  /** The row counts these runs, and names one with maximal creation time. */
  ghost predicate RowOk(db: Db, g: Gauge, runs: set<string>, before: ProjectRow, row: ProjectRow) {
    && row == before.(runs := |runs|, claims := g.count(runs).claims, supported := g.count(runs).supported, evidence := g.count(runs).evidence,
                      open := g.count(runs).open, latestRun := row.latestRun, lastActivity := row.lastActivity)
    && (runs == {} ==> row.latestRun == "" && row.lastActivity == None)
    && (runs != {} ==> IsLatest(g.time, runs, row.latestRun) && row.lastActivity == Some(g.time(row.latestRun)))
  }

  function AfterRun(row: ProjectRow, run: Run, k: Knowledge): ProjectRow {
    var later := row.lastActivity.None? || run.createdAt > row.lastActivity.value;
    row.(runs := row.runs + 1, claims := row.claims + k.claims, supported := row.supported + k.supported,
         evidence := row.evidence + k.evidence, open := row.open + k.open,
         latestRun := if later then run.id else row.latestRun,
         lastActivity := if later then Some(run.createdAt) else row.lastActivity)
  }

  lemma RowOneMore(db: Db, g: Gauge, runs: set<string>, before: ProjectRow, row: ProjectRow, r: string,
                   tally: Knowledge)
    requires RowOk(db, g, runs, before, row) && r !in runs && r in db.runs && db.runs[r].id == r && TakesIn(g.count, r, tally)
    requires Timed(g, db)
    ensures RowOk(db, g, runs + {r}, before, AfterRun(row, db.runs[r], tally))
  {
    LatestOneMore(g.time, runs, r, row.latestRun);
    assert g.count(runs + {r}) == Plus(g.count(runs), tally);
    assert runs + {r} != {};
  }

  lemma LatestOneMore(time: string -> int, items: set<string>, r: string, latest: string)
    requires items != {} ==> IsLatest(time, items, latest)
    ensures IsLatest(time, items + {r}, if items == {} || time(r) > time(latest) then r else latest)
  {
  }

  ghost predicate RowsOk(db: Db, g: Gauge, before: Rows, rows: Rows, done: set<string>) {
    rows.Keys == before.Keys && forall p | p in rows :: RowOk(db, g, ProjectDone(db, p, done), before[p], rows[p])
  }

  method AddToRow(row: ProjectRow, run: Run, tally: Knowledge) returns (project: ProjectRow)
    ensures project == AfterRun(row, run, tally)
  {
    project := row.(runs := row.runs + 1);
    if project.lastActivity.None? || run.createdAt > project.lastActivity.value {
      project := project.(lastActivity := Some(run.createdAt), latestRun := run.id);
    }
    project := project.(claims := project.claims + tally.claims, supported := project.supported + tally.supported,
                        evidence := project.evidence + tally.evidence, open := project.open + tally.open);
  }

  method AddToRows(db: Db, ghost g: Gauge, ghost before: Rows, rows: Rows, ghost done: set<string>, r: string,
                   tally: Knowledge) returns (next: Rows)
    requires RowsOk(db, g, before, rows, done) && r in db.runs && r !in done && db.runs[r].id == r && TakesIn(g.count, r, tally)
    requires Timed(g, db)
    ensures RowsOk(db, g, before, next, done + {r})
  {
    var run := db.runs[r];
    next := rows;
    if run.project in rows {
      var project := AddToRow(rows[run.project], run, tally);
      next := rows[run.project := project];
    }
    forall p | p in next ensures RowOk(db, g, ProjectDone(db, p, done + {r}), before[p], next[p]) {
      ProjectDoneOneMore(db, p, done, r);
      if p == run.project {
        RowOneMore(db, g, ProjectDone(db, p, done), before[p], rows[p], r, tally);
      }
    }
  }

  lemma ProjectDoneOneMore(db: Db, p: string, done: set<string>, r: string)
    requires r in db.runs && r !in done
    ensures ProjectDone(db, p, done + {r}) == if db.runs[r].project == p then ProjectDone(db, p, done) + {r} else ProjectDone(db, p, done)
    ensures r !in ProjectDone(db, p, done)
  {
  }

  // ---- The latest item of each project and each system

  ghost predicate LatestOk(time: string -> int, keys: set<string>, of: string -> set<string>, latest: map<string, string>) {
    && latest.Keys <= keys
    && forall p | p in keys :: (p in latest <==> of(p) != {}) && (p in latest ==> IsLatest(time, of(p), latest[p]))
  }

  /** `newer` compares the item with the latest one so far. */
  method AddLatest(ghost time: string -> int, ghost keys: set<string>, ghost of: string -> set<string>,
                   ghost more: string -> set<string>, latest: map<string, string>, key: string, r: string, newer: bool)
      returns (next: map<string, string>)
    requires LatestOk(time, keys, of, latest) && key in keys
    requires key in latest ==> newer == (time(r) > time(latest[key]))
    requires forall p | p in keys :: more(p) == if p == key then of(p) + {r} else of(p)
    ensures LatestOk(time, keys, more, next) && next in {latest, latest[key := r]}
  {
    LatestOneMore(time, of(key), r, if key in latest then latest[key] else "");
    next := latest;
    if key !in latest || newer {
      next := latest[key := r];
    }
  }

  lemma LatestUnmoved(time: string -> int, keys: set<string>, of: string -> set<string>, more: string -> set<string>,
                      latest: map<string, string>)
    requires LatestOk(time, keys, of, latest) && forall p | p in keys :: more(p) == of(p)
    ensures LatestOk(time, keys, more, latest)
  {
  }

  // ---- Certificates

  function CertifiedIn(db: Db, runs: set<string>): set<string> {
    set r | r in runs && DecisionIdOf(db, r) in db.certificates
  }

  function AllowedIn(db: Db, runs: set<string>): set<string> {
    set r | r in runs && DecisionIdOf(db, r) in db.certificates && db.certificates[DecisionIdOf(db, r)].actionAllowed
  }

  function AllowedCount(lines: seq<CertificateLine>): nat {
    if lines == [] then 0
    else AllowedCount(lines[..|lines| - 1]) + if lines[|lines| - 1].allowed then 1 else 0
  }

  function Like(keys: set<string>, line: string -> CertificateLine, x: CertificateLine): set<string> {
    set k | k in keys && line(k) == x
  }

  /** One line for each key was added to `before`, in some order. */
  ghost predicate LinesAre(lines: seq<CertificateLine>, before: seq<CertificateLine>, keys: set<string>, line: string -> CertificateLine) {
    forall x: CertificateLine :: multiset(lines)[x] == multiset(before)[x] + |Like(keys, line, x)|
  }

  lemma LinesOneMore(lines: seq<CertificateLine>, before: seq<CertificateLine>, keys: set<string>, line: string -> CertificateLine, k: string)
    requires LinesAre(lines, before, keys, line) && k !in keys
    ensures LinesAre(lines + [line(k)], before, keys + {k}, line)
  {
    hide Like;
    forall x: CertificateLine ensures multiset(lines + [line(k)])[x] == multiset(before)[x] + |Like(keys + {k}, line, x)| {
      LikeOneMore(keys, line, k, x);
      OneMoreCounted(lines, line(k), x);
    }
  }

  lemma LikeOneMore(keys: set<string>, line: string -> CertificateLine, k: string, x: CertificateLine)
    requires k !in keys
    ensures |Like(keys + {k}, line, x)| == |Like(keys, line, x)| + if line(k) == x then 1 else 0
  {
    assert Like(keys + {k}, line, x) == Like(keys, line, x) + if line(k) == x then {k} else {};
  }

  lemma OneMoreCounted<T>(items: seq<T>, item: T, x: T)
    ensures multiset(items + [item])[x] == multiset(items)[x] + if item == x then 1 else 0
  {
  }

  /** The line of a run's certificate `c`. */
  function OwnLine(t: Tables, listed: set<string>, systems: set<string>, run: Run, d: string, c: Certificate): CertificateLine {
    CertificateLine(d, run.id, run.project, ProjectName(t, listed, run.project), run.aiSystem, SystemName(t, systems, run.aiSystem),
                    Judged(c.verdict), c.actionAllowed, c.policyVersion, c.issuedAt, c.digest, c.issuedAt)
  }

  const NO_LINE := CertificateLine("", "", "", "", "", "", Reported(""), false, "", 0, "", 0)

  function RunLines(t: Tables, listed: set<string>, systems: set<string>): string -> CertificateLine {
    r =>
      var d := DecisionIdOf(t.db, r);
      if r in t.db.runs && d in t.db.certificates then OwnLine(t, listed, systems, t.db.runs[r], d, t.db.certificates[d]) else NO_LINE
  }

  ghost predicate LinesOk(t: Tables, listed: set<string>, systems: set<string>, runs: set<string>, lines: seq<CertificateLine>) {
    && |lines| == |CertifiedIn(t.db, runs)| && AllowedCount(lines) == |AllowedIn(t.db, runs)|
    && LinesAre(lines, [], CertifiedIn(t.db, runs), RunLines(t, listed, systems))
  }

  lemma OneMoreCertified(db: Db, runs: set<string>, r: string)
    requires r !in runs
    ensures CertifiedIn(db, runs + {r}) == if DecisionIdOf(db, r) in db.certificates then CertifiedIn(db, runs) + {r} else CertifiedIn(db, runs)
    ensures r !in CertifiedIn(db, runs)
  {
  }

  lemma OneMoreAllowed(db: Db, runs: set<string>, r: string)
    requires r !in runs
    ensures var d := DecisionIdOf(db, r);
            |AllowedIn(db, runs + {r})| == |AllowedIn(db, runs)| + if d in db.certificates && db.certificates[d].actionAllowed then 1 else 0
  {
    var d := DecisionIdOf(db, r);
    assert AllowedIn(db, runs + {r})
           == AllowedIn(db, runs) + if d in db.certificates && db.certificates[d].actionAllowed then {r} else {};
  }

  lemma OneMoreLine(lines: seq<CertificateLine>, line: CertificateLine)
    ensures AllowedCount(lines + [line]) == AllowedCount(lines) + if line.allowed then 1 else 0
  {
    assert (lines + [line])[..|lines|] == lines;
  }

  method AddLine(t: Tables, listed: set<string>, systems: set<string>, ghost runs: set<string>, lines: seq<CertificateLine>, r: string)
      returns (next: seq<CertificateLine>)
    requires LinesOk(t, listed, systems, runs, lines) && r !in runs && r in t.db.runs
    ensures LinesOk(t, listed, systems, runs + {r}, next)
  {
    hide LinesAre, AllowedIn, CertifiedIn;
    var d := DecisionOf(t.db, t.db.runs[r].decision).id;
    OneMoreCertified(t.db, runs, r);
    OneMoreAllowed(t.db, runs, r);
    next := lines;
    if d in t.db.certificates {
      var line := OwnLine(t, listed, systems, t.db.runs[r], d, t.db.certificates[d]);
      OneMoreLine(lines, line);
      LinesOneMore(lines, [], CertifiedIn(t.db, runs), RunLines(t, listed, systems), r);
      next := lines + [line];
    }
  }

  // ---- The loop

  datatype Pass = Pass(
    rows: Rows, knowledge: Knowledge, latestByProject: map<string, string>, latestBySystem: map<string, string>,
    lines: seq<CertificateLine>)

  ghost predicate PassOk(t: Tables, account: string, g: Gauge, before: Rows, systems: set<string>, done: set<string>, pass: Pass) {
    && RowsOk(t.db, g, before, pass.rows, done)
    && pass.knowledge == g.count(Shown(t, account) * done)
    && LatestOk(g.time, before.Keys, ProjectsDone(t.db, done), pass.latestByProject)
    && LatestOk(g.time, systems, SystemsDone(t, account, done), pass.latestBySystem)
    && LinesOk(t, before.Keys, systems, Shown(t, account) * done, pass.lines)
  }

  /** A run that is not shown is skipped. */
  lemma HiddenRun(t: Tables, account: string, g: Gauge, before: Rows, systems: set<string>, done: set<string>, pass: Pass, r: string)
    requires PassOk(t, account, g, before, systems, done, pass) && r in t.db.runs && r !in done && r !in Shown(t, account)
    requires before.Keys == Listed(t, account)
    ensures PassOk(t, account, g, before, systems, done + {r}, pass)
  {
    hide LinesOk, RowOk, LatestOk;
    forall p | p in before ensures ProjectDone(t.db, p, done + {r}) == ProjectDone(t.db, p, done) {
      ProjectDoneOneMore(t.db, p, done, r);
    }
    assert Shown(t, account) * (done + {r}) == Shown(t, account) * done;
    LatestUnmoved(g.time, before.Keys, ProjectsDone(t.db, done), ProjectsDone(t.db, done + {r}), pass.latestByProject);
    LatestUnmoved(g.time, systems, SystemsDone(t, account, done), SystemsDone(t, account, done + {r}), pass.latestBySystem);
  }

  lemma SystemDoneOneMore(t: Tables, account: string, s: string, done: set<string>, r: string)
    requires r in Shown(t, account) && r !in done
    ensures SystemDone(t, account, s, done + {r})
            == if t.db.runs[r].aiSystem == s then SystemDone(t, account, s, done) + {r} else SystemDone(t, account, s, done)
    ensures r !in SystemDone(t, account, s, done)
  {
  }

  /** One round of the loop, for a shown run. */
  method AddRun(t: Tables, account: string, ghost g: Gauge, ghost before: Rows, systems: set<string>,
                ghost done: set<string>, pass: Pass, r: string) returns (next: Pass)
    requires KeyedTables(t) && PassOk(t, account, g, before, systems, done, pass) && r in Shown(t, account) && r !in done
    requires TakesIn(g.count, r, TallyOf(t.db, r)) && Timed(g, t.db)
    ensures PassOk(t, account, g, before, systems, done + {r}, next)
  {
    var tally := TallyRun(t.db, r);
    var rows := AddToRows(t.db, g, before, pass.rows, done, r, tally);
    var byProject := AddProjectLatest(t, g, before.Keys, done, pass.rows.Keys, pass.latestByProject, r);
    var bySystem := AddSystemLatest(t, account, g, systems, done, pass.latestBySystem, r);
    ghost var shown := Shown(t, account) * done;
    assert Shown(t, account) * (done + {r}) == shown + {r};
    var lines := AddLine(t, pass.rows.Keys, systems, shown, pass.lines, r);
    next := Pass(rows, Plus(pass.knowledge, tally), byProject, bySystem, lines);
  }

  method AddProjectLatest(t: Tables, ghost g: Gauge, ghost keys: set<string>, ghost done: set<string>, listed: set<string>,
                          latest: map<string, string>, r: string) returns (next: map<string, string>)
    requires keys == listed && r in t.db.runs && r !in done && Timed(g, t.db)
    requires LatestOk(g.time, keys, ProjectsDone(t.db, done), latest)
    ensures LatestOk(g.time, keys, ProjectsDone(t.db, done + {r}), next)
  {
    forall p ensures ProjectsDone(t.db, done + {r})(p)
                     == if t.db.runs[r].project == p then ProjectsDone(t.db, done)(p) + {r} else ProjectsDone(t.db, done)(p)
             ensures r !in ProjectsDone(t.db, done)(p) {
      ProjectDoneOneMore(t.db, p, done, r);
    }
    if t.db.runs[r].project in listed {
      var key := t.db.runs[r].project;
      var newer := key in latest && latest[key] in t.db.runs && t.db.runs[r].createdAt > t.db.runs[latest[key]].createdAt;
      next := AddLatest(g.time, keys, ProjectsDone(t.db, done), ProjectsDone(t.db, done + {r}), latest, key, r, newer);
    } else {
      next := latest;
    }
  }

  method AddSystemLatest(t: Tables, account: string, ghost g: Gauge, systems: set<string>, ghost done: set<string>,
                         latest: map<string, string>, r: string)
      returns (next: map<string, string>)
    requires r in Shown(t, account) && r !in done && Timed(g, t.db)
    requires LatestOk(g.time, systems, SystemsDone(t, account, done), latest)
    ensures LatestOk(g.time, systems, SystemsDone(t, account, done + {r}), next)
  {
    forall s ensures SystemsDone(t, account, done + {r})(s)
                     == if t.db.runs[r].aiSystem == s then SystemsDone(t, account, done)(s) + {r} else SystemsDone(t, account, done)(s)
             ensures r !in SystemsDone(t, account, done)(s) {
      SystemDoneOneMore(t, account, s, done, r);
    }
    if t.db.runs[r].aiSystem in systems {
      var key := t.db.runs[r].aiSystem;
      var newer := key in latest && latest[key] in t.db.runs && t.db.runs[r].createdAt > t.db.runs[latest[key]].createdAt;
      next := AddLatest(g.time, systems, SystemsDone(t, account, done), SystemsDone(t, account, done + {r}), latest, key, r, newer);
    } else {
      next := latest;
    }
  }

  ghost predicate Untouched(rows: Rows) {
    forall p | p in rows ::
      rows[p].runs == 0 && rows[p].claims == 0 && rows[p].supported == 0 && rows[p].evidence == 0 && rows[p].open == 0
      && rows[p].latestRun == "" && rows[p].lastActivity == None
  }

  lemma NothingDone(t: Tables, account: string, g: Gauge, before: Rows, systems: set<string>)
    requires Untouched(before) && g.count({}) == NOTHING
    ensures PassOk(t, account, g, before, systems, {}, Pass(before, NOTHING, map[], map[], []))
  {
    assert Shown(t, account) * {} == {};
    assert CertifiedIn(t.db, {}) == {} && AllowedIn(t.db, {}) == {};
    forall p ensures ProjectsDone(t.db, {})(p) == {} && SystemsDone(t, account, {})(p) == {} {
    }
  }

  ghost predicate Counts(g: Gauge, db: Db) {
    Timed(g, db) && g.count({}) == NOTHING && forall r :: TakesIn(g.count, r, TallyOf(db, r))
  }

  function GaugeOf(db: Db): Gauge {
    Gauge(KnowledgeIn(db), r => if r in db.runs then db.runs[r].createdAt else 0)
  }

  lemma KnowledgeCounts(db: Db)
    ensures Counts(GaugeOf(db), db)
  {
    NoRunsNothing(db);
    forall r, runs: set<string> | r !in runs
      ensures KnowledgeIn(db)(runs + {r}) == Plus(KnowledgeIn(db)(runs), TallyOf(db, r)) {
      KnowledgeOneMore(db, runs, r);
    }
  }

  /** One round of the loop; a run of neither the account nor a listed project is skipped. */
  method CountRun(t: Tables, account: string, ghost g: Gauge, before: Rows, systems: set<string>,
                  ghost done: set<string>, pass: Pass, r: string) returns (next: Pass)
    requires KeyedTables(t) && before.Keys == Listed(t, account) && Counts(g, t.db) && r in t.db.runs && r !in done
    requires PassOk(t, account, g, before, systems, done, pass)
    ensures PassOk(t, account, g, before, systems, done + {r}, next)
  {
    var run := t.db.runs[r];
    if run.account != account && run.project !in before {
      HiddenRun(t, account, g, before, systems, done, pass, r);
      next := pass;
    } else {
      next := AddRun(t, account, g, before, systems, done, pass, r);
    }
  }

  method CountRuns(t: Tables, account: string, ghost g: Gauge, before: Rows, systems: set<string>)
      returns (pass: Pass)
    requires KeyedTables(t) && before.Keys == Listed(t, account) && Untouched(before) && Counts(g, t.db)
    ensures PassOk(t, account, g, before, systems, t.db.runs.Keys, pass)
  {
    hide PassOk, TakesIn, Timed, Untouched, Listed;
    pass := Pass(before, NOTHING, map[], map[], []);
    NothingDone(t, account, g, before, systems);
    var todo := t.db.runs.Keys;
    ghost var done: set<string> := {};
    while todo != {}
      invariant todo <= t.db.runs.Keys && done == t.db.runs.Keys - todo
      invariant PassOk(t, account, g, before, systems, done, pass)
    {
      var r :| r in todo;
      pass := CountRun(t, account, g, before, systems, done, pass, r);
      todo := todo - {r};
      done := done + {r};
    }
    assert done == t.db.runs.Keys;
  }
}
