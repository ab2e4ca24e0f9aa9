/** The first loops of `GetAccountDashboard`, over projects, connections, reports and systems,
    and its inner loops over one run (apps/control-plane/internal/store/memory_portfolio.go).
    Each reads its map in an arbitrary order and is proved against the cardinalities of
    `DashboardCounts`. Slice elements reached through an index map are values of a map here. */
module DashboardRows {
  import opened Text
  import opened Domain
  import opened Store
  import opened Portfolio
  import opened DashboardCounts

  datatype ProjectRow = ProjectRow(
    name: string, runs: nat, systems: nat, claims: nat, supported: nat, evidence: nat, open: nat, coverage: int,
    certification: string, connection: string, reports: nat, latestRun: string, lastActivity: Option<int>)

  function NewRow(p: Project): ProjectRow {
    ProjectRow(p.name, 0, 0, 0, 0, 0, 0, 0, "uncertified", "disconnected", 0, "", None)
  }

  type Rows = map<string, ProjectRow>

  /** The verdict of an own certificate, or the status a connected project reported. */
  datatype Standing = Judged(verdict: Verdict) | Reported(status: string)

  datatype CertificateLine = CertificateLine(
    decision: string, run: string, project: string, projectName: string, system: string, systemName: string, standing: Standing,
    allowed: bool, policyVersion: string, issuedAt: int, digest: string, receivedAt: int)

  /** Names are shown of listed projects and systems only. */
  function ProjectName(t: Tables, listed: set<string>, p: string): string {
    if p in listed && p in t.projects then t.projects[p].name else ""
  }

  function SystemName(t: Tables, systems: set<string>, s: string): string {
    if s in systems && s in t.systems then t.systems[s].name else ""
  }

  // ---- Projects and connections

  method ListProjects(t: Tables, account: string) returns (rows: Rows)
    requires KeyedTables(t)
    ensures rows.Keys == Listed(t, account) && forall p | p in rows :: rows[p] == NewRow(t.projects[p])
  {
    rows := map[];
    var todo := t.projects.Keys;
    while todo != {}
      invariant todo <= t.projects.Keys
      invariant rows.Keys == Listed(t, account) - todo
      invariant forall p | p in rows :: p in t.projects && rows[p] == NewRow(t.projects[p])
    {
      var k :| k in todo;
      var project := t.projects[k];
      if project.account == account {
        rows := rows[project.id := NewRow(project)];
      }
      todo := todo - {k};
    }
  }

  function ConnectionsOf(t: Tables, account: string, p: string, done: set<string>): set<string> {
    set k | k in done && k in t.connections && t.connections[k].account == account && t.connections[k].project == p
  }

  /** Active when some connection is; otherwise the state of one of them; "disconnected"
      when there is none. */
  ghost predicate ConnectionOk(t: Tables, account: string, p: string, done: set<string>, status: string) {
    var own := ConnectionsOf(t, account, p, done);
    && ((exists k :: k in own && t.connections[k].Active()) ==> status == "active")
    && (own == {} ==> status == "disconnected")
    && (own != {} ==> exists k :: k in own && t.connections[k].status == status)
  }

  lemma NothingConnected(t: Tables, account: string, rows: Rows)
    requires forall p | p in rows :: rows[p].connection == "disconnected"
    ensures forall p | p in rows :: ConnectionOk(t, account, p, {}, rows[p].connection)
  {
  }

  /** `reportsOf` starts at zero for every connection of the account. */
  method ConnectProjects(t: Tables, account: string, before: Rows) returns (rows: Rows, reportsOf: map<string, nat>)
    requires KeyedTables(t) && forall p | p in before :: before[p].connection == "disconnected"
    ensures rows.Keys == before.Keys
    ensures forall p | p in rows :: rows[p] == before[p].(connection := rows[p].connection)
    ensures forall p | p in rows :: ConnectionOk(t, account, p, t.connections.Keys, rows[p].connection)
    ensures reportsOf.Keys == (set k | k in t.connections && t.connections[k].account == account)
    ensures forall k | k in reportsOf :: reportsOf[k] == 0
  {
    hide ConnectionOk;
    rows, reportsOf := before, map[];
    NothingConnected(t, account, before);
    var todo := t.connections.Keys;
    ghost var done: set<string> := {};
    while todo != {}
      invariant todo <= t.connections.Keys && done == t.connections.Keys - todo
      invariant rows.Keys == before.Keys
      invariant forall p | p in rows :: rows[p] == before[p].(connection := rows[p].connection)
      invariant forall p | p in rows :: ConnectionOk(t, account, p, done, rows[p].connection)
      invariant reportsOf.Keys == (set k | k in done && t.connections[k].account == account)
      invariant forall k | k in reportsOf :: reportsOf[k] == 0
    {
      var k :| k in todo;
      var connection := t.connections[k];
      todo := todo - {k};
      ghost var was := rows;
      if connection.account == account {
        if connection.project in rows {
          var project := rows[connection.project];
          if connection.status == "active" || project.connection == "disconnected" {
            rows := rows[connection.project := project.(connection := connection.status)];
          }
        }
        reportsOf := reportsOf[connection.id := 0];
      }
      forall p | p in rows ensures ConnectionOk(t, account, p, done + {k}, rows[p].connection) {
        OneMoreConnection(t, account, p, done, k, was[p].connection, rows[p].connection);
      }
      done := done + {k};
    }
    assert done == t.connections.Keys;
  }

  lemma OneMoreConnection(t: Tables, account: string, p: string, done: set<string>, k: string, before: string, after: string)
    requires k in t.connections && k !in done && ConnectionOk(t, account, p, done, before)
    requires var c := t.connections[k];
             after == if c.account == account && c.project == p && (c.status == "active" || before == "disconnected")
                      then c.status else before
    ensures ConnectionOk(t, account, p, done + {k}, after)
  {
    var c := t.connections[k];
    var own, more := ConnectionsOf(t, account, p, done), ConnectionsOf(t, account, p, done + {k});
    if c.account == account && c.project == p {
      assert more == own + {k};
      if own != {} && after == before {
        var j :| j in own && t.connections[j].status == before;
        assert j in more;
      } else {
        assert k in more;
      }
    } else {
      assert more == own;
    }
  }

  // ---- Reports and systems

  function ReportsAt(t: Tables, account: string, p: string, done: set<string>): set<string> {
    set k | k in done && k in t.reports && t.reports[k].account == account && t.reports[k].project == p
  }

  function ReportsBy(t: Tables, account: string, c: string, done: set<string>): set<string> {
    set k | k in done && k in t.reports && t.reports[k].account == account && t.reports[k].connection == c
  }

  /** The counts of rows and connections after the reports in `done`. */
  ghost predicate Reported(t: Tables, account: string, before: Rows, rows: Rows, done: set<string>) {
    rows.Keys == before.Keys && forall p | p in rows :: rows[p] == before[p].(reports := |ReportsAt(t, account, p, done)|)
  }

  ghost predicate ReportedBy(t: Tables, account: string, reportsOf: map<string, nat>, done: set<string>) {
    forall c | c in reportsOf :: reportsOf[c] == |ReportsBy(t, account, c, done)|
  }

  method CountReports(t: Tables, account: string, before: Rows, zero: map<string, nat>)
      returns (rows: Rows, reportsOf: map<string, nat>, listed: nat)
    requires (forall p | p in before :: before[p].reports == 0) && forall k | k in zero :: zero[k] == 0
    ensures Reported(t, account, before, rows, t.reports.Keys)
    ensures reportsOf.Keys == zero.Keys && ReportedBy(t, account, reportsOf, t.reports.Keys)
    ensures listed == |ReportsOf(t, account, t.reports.Keys)|
  {
    rows, reportsOf, listed := before, zero, 0;
    var todo := t.reports.Keys;
    ghost var done: set<string> := {};
    NoReports(t, account, before, zero);
    while todo != {}
      invariant todo <= t.reports.Keys && done == t.reports.Keys - todo
      invariant Reported(t, account, before, rows, done)
      invariant reportsOf.Keys == zero.Keys && ReportedBy(t, account, reportsOf, done)
      invariant listed == |ReportsOf(t, account, done)|
    {
      var k :| k in todo;
      rows, reportsOf, listed := CountReport(t, account, before, rows, reportsOf, listed, done, k);
      todo := todo - {k};
      done := done + {k};
    }
    assert done == t.reports.Keys;
  }

  function ReportsOf(t: Tables, account: string, done: set<string>): set<string> {
    set k | k in done && k in t.reports && t.reports[k].account == account
  }

  /** One round of the loop. */
  method CountReport(t: Tables, account: string, ghost before: Rows, rows: Rows, reportsOf: map<string, nat>, listed: nat,
                     ghost done: set<string>, k: string)
      returns (newRows: Rows, newReportsOf: map<string, nat>, newListed: nat)
    requires k in t.reports && k !in done && Reported(t, account, before, rows, done) && ReportedBy(t, account, reportsOf, done)
    requires listed == |ReportsOf(t, account, done)|
    ensures Reported(t, account, before, newRows, done + {k}) && ReportedBy(t, account, newReportsOf, done + {k})
    ensures newReportsOf.Keys == reportsOf.Keys && newListed == |ReportsOf(t, account, done + {k})|
  {
    var report := t.reports[k];
    newRows, newReportsOf, newListed := rows, reportsOf, listed;
    ReportedOneMore(t, account, before, rows, reportsOf, done, k);
    OneMoreReportOf(t, account, done, k);
    if report.account == account {
      newListed := newListed + 1;
      if report.project in rows {
        newRows := rows[report.project := rows[report.project].(reports := rows[report.project].reports + 1)];
      }
      if report.connection in reportsOf {
        newReportsOf := reportsOf[report.connection := reportsOf[report.connection] + 1];
      }
    }
  }

  lemma OneMoreReportOf(t: Tables, account: string, done: set<string>, k: string)
    requires k in t.reports && k !in done
    ensures |ReportsOf(t, account, done + {k})| == |ReportsOf(t, account, done)| + if t.reports[k].account == account then 1 else 0
  {
    assert ReportsOf(t, account, done + {k}) == ReportsOf(t, account, done) + if t.reports[k].account == account then {k} else {};
  }

  lemma NoReports(t: Tables, account: string, rows: Rows, zero: map<string, nat>)
    requires (forall p | p in rows :: rows[p].reports == 0) && forall k | k in zero :: zero[k] == 0
    ensures Reported(t, account, rows, rows, {}) && ReportedBy(t, account, zero, {})
  {
    assert forall p :: ReportsAt(t, account, p, {}) == {} && ReportsBy(t, account, p, {}) == {};
  }

  lemma ReportedOneMore(t: Tables, account: string, before: Rows, rows: Rows, reportsOf: map<string, nat>, done: set<string>, k: string)
    requires k in t.reports && k !in done && Reported(t, account, before, rows, done) && ReportedBy(t, account, reportsOf, done)
    ensures var r := t.reports[k];
            && Reported(t, account, before,
                        if r.account == account && r.project in rows
                        then rows[r.project := rows[r.project].(reports := rows[r.project].reports + 1)] else rows, done + {k})
            && ReportedBy(t, account,
                          if r.account == account && r.connection in reportsOf
                          then reportsOf[r.connection := reportsOf[r.connection] + 1] else reportsOf, done + {k})
  {
    hide ReportsAt, ReportsBy;
    forall p ensures |ReportsAt(t, account, p, done + {k})|
                     == |ReportsAt(t, account, p, done)|
                        + if t.reports[k].account == account && t.reports[k].project == p then 1 else 0
             ensures |ReportsBy(t, account, p, done + {k})|
                     == |ReportsBy(t, account, p, done)|
                        + if t.reports[k].account == account && t.reports[k].connection == p then 1 else 0 {
      OneMoreReportAt(t, account, p, done, k);
      OneMoreReportBy(t, account, p, done, k);
    }
  }

  lemma OneMoreReportAt(t: Tables, account: string, p: string, done: set<string>, k: string)
    requires k in t.reports && k !in done
    ensures |ReportsAt(t, account, p, done + {k})|
            == |ReportsAt(t, account, p, done)| + if t.reports[k].account == account && t.reports[k].project == p then 1 else 0
  {
    var r := t.reports[k];
    assert ReportsAt(t, account, p, done + {k})
           == ReportsAt(t, account, p, done) + if r.account == account && r.project == p then {k} else {};
  }

  lemma OneMoreReportBy(t: Tables, account: string, c: string, done: set<string>, k: string)
    requires k in t.reports && k !in done
    ensures |ReportsBy(t, account, c, done + {k})|
            == |ReportsBy(t, account, c, done)| + if t.reports[k].account == account && t.reports[k].connection == c then 1 else 0
  {
    var r := t.reports[k];
    assert ReportsBy(t, account, c, done + {k})
           == ReportsBy(t, account, c, done) + if r.account == account && r.connection == c then {k} else {};
  }

  function SystemsAt(t: Tables, account: string, p: string, done: set<string>): set<string> {
    set k | k in done && k in t.systems && t.systems[k].account == account && t.systems[k].project == p
  }

  ghost predicate Equipped(t: Tables, account: string, before: Rows, rows: Rows, done: set<string>) {
    rows.Keys == before.Keys && forall p | p in rows :: rows[p] == before[p].(systems := |SystemsAt(t, account, p, done)|)
  }

  method ListSystems(t: Tables, account: string, before: Rows) returns (rows: Rows, statuses: map<string, string>)
    requires KeyedTables(t) && forall p | p in before :: before[p].systems == 0
    ensures Equipped(t, account, before, rows, t.systems.Keys)
    ensures statuses.Keys == ListedSystems(t, account) && forall s | s in statuses :: statuses[s] == "uncertified"
  {
    rows, statuses := before, map[];
    var todo := t.systems.Keys;
    ghost var done: set<string> := {};
    assert forall p :: SystemsAt(t, account, p, {}) == {};
    while todo != {}
      invariant todo <= t.systems.Keys && done == t.systems.Keys - todo
      invariant Equipped(t, account, before, rows, done)
      invariant statuses.Keys == ListedSystems(t, account) - todo
      invariant forall s | s in statuses :: statuses[s] == "uncertified"
    {
      var k :| k in todo;
      var system := t.systems[k];
      rows := CountSystem(t, account, before, rows, done, k);
      assert ListedSystems(t, account) - (todo - {k})
             == (ListedSystems(t, account) - todo) + if system.account == account then {k} else {};
      todo := todo - {k};
      done := done + {k};
      if system.account == account {
        statuses := statuses[system.id := "uncertified"];
      }
    }
    assert done == t.systems.Keys;
  }

  method CountSystem(t: Tables, account: string, ghost before: Rows, rows: Rows, ghost done: set<string>, k: string) returns (next: Rows)
    requires k in t.systems && k !in done && Equipped(t, account, before, rows, done)
    ensures Equipped(t, account, before, next, done + {k})
  {
    var system := t.systems[k];
    EquippedOneMore(t, account, before, rows, done, k);
    next := rows;
    if system.account == account && system.project in rows {
      next := rows[system.project := rows[system.project].(systems := rows[system.project].systems + 1)];
    }
  }

  lemma EquippedOneMore(t: Tables, account: string, before: Rows, rows: Rows, done: set<string>, k: string)
    requires k in t.systems && k !in done && Equipped(t, account, before, rows, done)
    ensures var s := t.systems[k];
            Equipped(t, account, before,
                     if s.account == account && s.project in rows
                     then rows[s.project := rows[s.project].(systems := rows[s.project].systems + 1)] else rows, done + {k})
  {
    forall p ensures |SystemsAt(t, account, p, done + {k})|
                     == |SystemsAt(t, account, p, done)|
                        + if t.systems[k].account == account && t.systems[k].project == p then 1 else 0 {
      OneMoreSystem(t, account, p, done, k);
    }
  }

  lemma OneMoreSystem(t: Tables, account: string, p: string, done: set<string>, k: string)
    requires k in t.systems && k !in done
    ensures |SystemsAt(t, account, p, done + {k})|
            == |SystemsAt(t, account, p, done)| + if t.systems[k].account == account && t.systems[k].project == p then 1 else 0
  {
    assert SystemsAt(t, account, p, done + {k})
           == SystemsAt(t, account, p, done) + if t.systems[k].account == account && t.systems[k].project == p then {k} else {};
  }

  // ---- One run: the three inner loops

  /** The claim counters of one run, over the claims that are not still to do. */
  function ClaimTally(db: Db, r: string, todo: set<string>): Knowledge {
    Knowledge(|ClaimsAt(db, r) - todo|, |SupportedAt(db, r) - todo|, |ContradictedAt(db, r) - todo|, |StaleAt(db, r) - todo|, 0, 0)
  }

  function CountedClaim(k: Knowledge, state: ClaimState): Knowledge {
    var n := k.(claims := k.claims + 1);
    if IsSupported(state) then n.(supported := k.supported + 1)
    else if IsContradicted(state) then n.(contradicted := k.contradicted + 1)
    else if state.Stale? then n.(stale := k.stale + 1)
    else n
  }

  lemma OneMoreClaim(db: Db, r: string, todo: set<string>, k: string)
    requires k in todo && k in db.claims
    ensures ClaimTally(db, r, todo - {k})
            == if db.claims[k].decision != DecisionIdOf(db, r) then ClaimTally(db, r, todo)
               else CountedClaim(ClaimTally(db, r, todo), db.claims[k].state)
  {
    LeftOut(ClaimsAt(db, r), todo, k);
    LeftOut(SupportedAt(db, r), todo, k);
    LeftOut(ContradictedAt(db, r), todo, k);
    LeftOut(StaleAt(db, r), todo, k);
  }

  lemma TallyEnds(db: Db, r: string)
    ensures ClaimTally(db, r, db.claims.Keys) == NOTHING
    ensures ClaimTally(db, r, {}) == TallyOf(db, r).(evidence := 0, open := 0)
  {
    NothingLeft(ClaimsAt(db, r));
    NothingLeft(SupportedAt(db, r));
    NothingLeft(ContradictedAt(db, r));
    NothingLeft(StaleAt(db, r));
    AllLeft(ClaimsAt(db, r), db.claims.Keys);
    AllLeft(SupportedAt(db, r), db.claims.Keys);
    AllLeft(ContradictedAt(db, r), db.claims.Keys);
    AllLeft(StaleAt(db, r), db.claims.Keys);
  }

  lemma AllLeft(items: set<string>, todo: set<string>)
    requires items <= todo
    ensures items - todo == {}
  {
  }

  method CountClaims(db: Db, r: string, d: string) returns (k: Knowledge)
    requires d == DecisionIdOf(db, r)
    ensures k == TallyOf(db, r).(evidence := 0, open := 0)
  {
    k := NOTHING;
    var todo := db.claims.Keys;
    TallyEnds(db, r);
    while todo != {}
      invariant todo <= db.claims.Keys && k == ClaimTally(db, r, todo)
    {
      var c :| c in todo;
      OneMoreClaim(db, r, todo, c);
      todo := todo - {c};
      if db.claims[c].decision != d {
        continue;
      }
      k := CountClaim(k, db.claims[c].state);
    }
  }

  /** The `switch` on the claim's state. */
  method CountClaim(before: Knowledge, state: ClaimState) returns (k: Knowledge)
    ensures k == CountedClaim(before, state)
  {
    k := before.(claims := before.claims + 1);
    match state {
      case Supported => k := k.(supported := k.supported + 1);
      case ExternallyVerified => k := k.(supported := k.supported + 1);
      case Contradicted => k := k.(contradicted := k.contradicted + 1);
      case Rejected => k := k.(contradicted := k.contradicted + 1);
      case Stale => k := k.(stale := k.stale + 1);
      case _ =>
    }
  }

  lemma LeftOut(items: set<string>, todo: set<string>, k: string)
    requires k in todo
    ensures |items - (todo - {k})| == |items - todo| + if k in items then 1 else 0
  {
    assert items - (todo - {k}) == (items - todo) + if k in items then {k} else {};
  }

  lemma NothingLeft(items: set<string>)
    ensures items - {} == items
  {
  }

  method CountEvidence(db: Db, r: string, run: string) returns (evidence: nat)
    requires run == RunOf(db, r).id
    ensures evidence == |EvidenceAt(db, r)|
  {
    evidence := 0;
    var todo := db.evidence.Keys;
    while todo != {}
      invariant todo <= db.evidence.Keys && evidence == |EvidenceAt(db, r) - todo|
    {
      var k :| k in todo;
      LeftOut(EvidenceAt(db, r), todo, k);
      todo := todo - {k};
      if db.evidence[k].run == run {
        evidence := evidence + 1;
      }
    }
    NothingLeft(EvidenceAt(db, r));
  }

  method CountUnknowns(db: Db, r: string, d: string) returns (open: nat)
    requires d == DecisionIdOf(db, r)
    ensures open == |DashboardCounts.OpenAt(db, r)|
  {
    open := 0;
    var todo := db.unknowns.Keys;
    while todo != {}
      invariant todo <= db.unknowns.Keys && open == |DashboardCounts.OpenAt(db, r) - todo|
    {
      var k :| k in todo;
      LeftOut(DashboardCounts.OpenAt(db, r), todo, k);
      todo := todo - {k};
      if db.unknowns[k].decision == d && !db.unknowns[k].resolved {
        open := open + 1;
      }
    }
    NothingLeft(DashboardCounts.OpenAt(db, r));
  }

  method TallyRun(db: Db, r: string) returns (tally: Knowledge)
    requires r in db.runs
    ensures tally == TallyOf(db, r)
  {
    var d := DecisionOf(db, db.runs[r].decision).id;
    tally := CountClaims(db, r, d);
    var evidence := CountEvidence(db, r, db.runs[r].id);
    var open := CountUnknowns(db, r, d);
    tally := tally.(evidence := evidence, open := open);
  }
}
