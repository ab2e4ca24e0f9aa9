/** What the account dashboard counts, as cardinalities over the stored tables
    (apps/control-plane/internal/store/memory_portfolio.go). */
module DashboardCounts {
  import opened Domain
  import opened Store
  import opened Portfolio

  datatype Tables = Tables(
    db: Db, projects: map<string, Project>, systems: map<string, AISystem>, connections: map<string, Connection>,
    reports: map<string, Report>, publications: map<string, Publication>)

  ghost predicate KeyedTables(t: Tables) {
    && (forall k | k in t.db.runs :: t.db.runs[k].id == k)
    && (forall k | k in t.projects :: t.projects[k].id == k)
    && (forall k | k in t.systems :: t.systems[k].id == k)
    && (forall k | k in t.connections :: t.connections[k].id == k)
  }

  function Listed(t: Tables, account: string): set<string> {
    set p | p in t.projects && t.projects[p].account == account
  }

  function ListedSystems(t: Tables, account: string): set<string> {
    set s | s in t.systems && t.systems[s].account == account
  }

  /** Runs of the account, and runs of a listed project whatever account they name. */
  function Shown(t: Tables, account: string): set<string> {
    set r | r in t.db.runs && (t.db.runs[r].account == account || t.db.runs[r].project in Listed(t, account))
  }

  function RunsOfProject(db: Db, p: string): set<string> {
    set r | r in db.runs && db.runs[r].project == p
  }

  // ---- What one run contributes

  function DecisionIdOf(db: Db, r: string): string {
    DecisionOf(db, RunOf(db, r).decision).id
  }

  function ClaimsAt(db: Db, r: string): set<string> {
    set c | c in db.claims && db.claims[c].decision == DecisionIdOf(db, r)
  }

  predicate IsSupported(state: ClaimState) { state.Supported? || state.ExternallyVerified? }
  predicate IsContradicted(state: ClaimState) { state.Contradicted? || state.Rejected? }

  function SupportedAt(db: Db, r: string): set<string> {
    set c | c in db.claims && db.claims[c].decision == DecisionIdOf(db, r) && IsSupported(db.claims[c].state)
  }

  function ContradictedAt(db: Db, r: string): set<string> {
    set c | c in db.claims && db.claims[c].decision == DecisionIdOf(db, r) && IsContradicted(db.claims[c].state)
  }

  function StaleAt(db: Db, r: string): set<string> {
    set c | c in db.claims && db.claims[c].decision == DecisionIdOf(db, r) && db.claims[c].state.Stale?
  }

  function EvidenceAt(db: Db, r: string): set<string> {
    set e | e in db.evidence && db.evidence[e].run == RunOf(db, r).id
  }

  function OpenAt(db: Db, r: string): set<string> {
    set u | u in db.unknowns && db.unknowns[u].decision == DecisionIdOf(db, r) && !db.unknowns[u].resolved
  }

  datatype Knowledge = Knowledge(claims: nat, supported: nat, contradicted: nat, stale: nat, evidence: nat, open: nat)

  const NOTHING := Knowledge(0, 0, 0, 0, 0, 0)

  function Plus(a: Knowledge, b: Knowledge): Knowledge {
    Knowledge(a.claims + b.claims, a.supported + b.supported, a.contradicted + b.contradicted, a.stale + b.stale,
              a.evidence + b.evidence, a.open + b.open)
  }

  function TallyOf(db: Db, r: string): Knowledge {
    Knowledge(|ClaimsAt(db, r)|, |SupportedAt(db, r)|, |ContradictedAt(db, r)|, |StaleAt(db, r)|, |EvidenceAt(db, r)|, |OpenAt(db, r)|)
  }

  // ---- What a set of runs contributes: cardinalities of sets of (run, item) pairs

  function Pairs(runs: set<string>, of: string -> set<string>): set<(string, string)> {
    set r, c | r in runs && c in of(r) :: (r, c)
  }

  function ClaimsIn(db: Db): string -> set<string> { r => ClaimsAt(db, r) }
  function SupportedIn(db: Db): string -> set<string> { r => SupportedAt(db, r) }
  function ContradictedIn(db: Db): string -> set<string> { r => ContradictedAt(db, r) }
  function StaleIn(db: Db): string -> set<string> { r => StaleAt(db, r) }
  function EvidenceIn(db: Db): string -> set<string> { r => EvidenceAt(db, r) }
  function OpenIn(db: Db): string -> set<string> { r => OpenAt(db, r) }

  function KnowledgeOf(db: Db, runs: set<string>): Knowledge {
    Knowledge(|Pairs(runs, ClaimsIn(db))|, |Pairs(runs, SupportedIn(db))|, |Pairs(runs, ContradictedIn(db))|,
              |Pairs(runs, StaleIn(db))|, |Pairs(runs, EvidenceIn(db))|, |Pairs(runs, OpenIn(db))|)
  }

  function Beside(r: string, items: set<string>): set<(string, string)> {
    set c | c in items :: (r, c)
  }

  lemma {:induction false} BesideCounts(r: string, items: set<string>)
    ensures |Beside(r, items)| == |items|
    decreases |items|
  {
    if items != {} {
      var c :| c in items;
      BesideCounts(r, items - {c});
      assert Beside(r, items) == Beside(r, items - {c}) + {(r, c)};
    } else {
      assert Beside(r, items) == {};
    }
  }

  lemma PairsOneMore(runs: set<string>, r: string, of: string -> set<string>)
    requires r !in runs
    ensures |Pairs(runs + {r}, of)| == |Pairs(runs, of)| + |of(r)|
  {
    BesideCounts(r, of(r));
    assert Pairs(runs + {r}, of) == Pairs(runs, of) + Beside(r, of(r));
    assert Pairs(runs, of) !! Beside(r, of(r));
  }

  lemma KnowledgeOneMore(db: Db, runs: set<string>, r: string)
    requires r !in runs
    ensures KnowledgeOf(db, runs + {r}) == Plus(KnowledgeOf(db, runs), TallyOf(db, r))
  {
    PairsOneMore(runs, r, ClaimsIn(db));
    PairsOneMore(runs, r, SupportedIn(db));
    PairsOneMore(runs, r, ContradictedIn(db));
    PairsOneMore(runs, r, StaleIn(db));
    PairsOneMore(runs, r, EvidenceIn(db));
    PairsOneMore(runs, r, OpenIn(db));
  }

  lemma NoRunsNothing(db: Db)
    ensures KnowledgeOf(db, {}) == NOTHING
  {
    NoPairs(ClaimsIn(db));
    NoPairs(SupportedIn(db));
    NoPairs(ContradictedIn(db));
    NoPairs(StaleIn(db));
    NoPairs(EvidenceIn(db));
    NoPairs(OpenIn(db));
  }

  lemma NoPairs(of: string -> set<string>)
    ensures Pairs({}, of) == {}
  {
  }

  // ---- Conservation

  lemma PairsOfBoth(a: set<string>, b: set<string>, of: string -> set<string>)
    requires a !! b
    ensures |Pairs(a + b, of)| == |Pairs(a, of)| + |Pairs(b, of)|
  {
    assert Pairs(a + b, of) == Pairs(a, of) + Pairs(b, of);
    assert Pairs(a, of) !! Pairs(b, of);
  }

  lemma KnowledgeOfBoth(db: Db, a: set<string>, b: set<string>)
    requires a !! b
    ensures KnowledgeOf(db, a + b) == Plus(KnowledgeOf(db, a), KnowledgeOf(db, b))
  {
    PairsOfBoth(a, b, ClaimsIn(db));
    PairsOfBoth(a, b, SupportedIn(db));
    PairsOfBoth(a, b, ContradictedIn(db));
    PairsOfBoth(a, b, StaleIn(db));
    PairsOfBoth(a, b, EvidenceIn(db));
    PairsOfBoth(a, b, OpenIn(db));
  }

  function KnowledgeIn(db: Db): set<string> -> Knowledge { runs => KnowledgeOf(db, runs) }

  ghost predicate Additive(f: set<string> -> Knowledge) {
    f({}) == NOTHING && forall a, b | a !! b :: f(a + b) == Plus(f(a), f(b))
  }

  lemma KnowledgeIsAdditive(db: Db)
    ensures Additive(KnowledgeIn(db))
  {
    NoRunsNothing(db);
    forall a: set<string>, b: set<string> | a !! b ensures KnowledgeIn(db)(a + b) == Plus(KnowledgeIn(db)(a), KnowledgeIn(db)(b)) {
      KnowledgeOfBoth(db, a, b);
    }
  }

  ghost function SumOver(db: Db, projects: set<string>, f: set<string> -> Knowledge): Knowledge
    decreases |projects|
  {
    if projects == {} then NOTHING
    else
      var p :| p in projects;
      Plus(f(RunsOfProject(db, p)), SumOver(db, projects - {p}, f))
  }

  function RunsOfProjects(db: Db, projects: set<string>): set<string> {
    set r | r in db.runs && db.runs[r].project in projects
  }

  lemma {:induction false} SumIsWhole(db: Db, projects: set<string>, f: set<string> -> Knowledge)
    requires Additive(f)
    ensures SumOver(db, projects, f) == f(RunsOfProjects(db, projects))
    decreases |projects|
  {
    if projects == {} {
      assert RunsOfProjects(db, projects) == {};
    } else {
      var p :| p in projects && SumOver(db, projects, f) == Plus(f(RunsOfProject(db, p)), SumOver(db, projects - {p}, f));
      SumIsWhole(db, projects - {p}, f);
      assert RunsOfProject(db, p) !! RunsOfProjects(db, projects - {p});
      assert RunsOfProjects(db, projects) == RunsOfProject(db, p) + RunsOfProjects(db, projects - {p});
    }
  }

  /** Shown runs that name no listed project. */
  function Homeless(t: Tables, account: string): set<string> {
    set r | r in Shown(t, account) && t.db.runs[r].project !in Listed(t, account)
  }

  lemma ShownRunsSplit(t: Tables, account: string)
    ensures Shown(t, account) == RunsOfProjects(t.db, Listed(t, account)) + Homeless(t, account)
    ensures RunsOfProjects(t.db, Listed(t, account)) !! Homeless(t, account)
  {
  }

  /** The account's totals are the sum over its projects plus the runs with no listed
      project: nothing is counted twice and nothing is lost. */
  lemma Conservation(t: Tables, account: string)
    ensures KnowledgeOf(t.db, Shown(t, account))
            == Plus(SumOver(t.db, Listed(t, account), KnowledgeIn(t.db)), KnowledgeOf(t.db, Homeless(t, account)))
  {
    KnowledgeIsAdditive(t.db);
    SumIsWhole(t.db, Listed(t, account), KnowledgeIn(t.db));
    ShownRunsSplit(t, account);
    KnowledgeOfBoth(t.db, RunsOfProjects(t.db, Listed(t, account)), Homeless(t, account));
  }

  // ---- The parts of the claims

  lemma SubsetCounts<T>(a: set<T>, b: set<T>)
    requires a <= b
    ensures |a| <= |b|
  {
    assert b == a + (b - a);
    assert |a + (b - a)| == |a| + |b - a|;
  }

  ghost predicate Parts(a: string -> set<string>, b: string -> set<string>, c: string -> set<string>, whole: string -> set<string>) {
    forall r :: a(r) !! b(r) && a(r) !! c(r) && b(r) !! c(r) && a(r) + b(r) + c(r) <= whole(r)
  }

  lemma PairsOfParts(runs: set<string>, a: string -> set<string>, b: string -> set<string>, c: string -> set<string>,
                     whole: string -> set<string>)
    requires Parts(a, b, c, whole)
    ensures |Pairs(runs, a)| + |Pairs(runs, b)| + |Pairs(runs, c)| <= |Pairs(runs, whole)|
  {
    var x, y, z := Pairs(runs, a), Pairs(runs, b), Pairs(runs, c);
    assert x !! y && x + y !! z;
    assert |x + y + z| == |x| + |y| + |z|;
    assert x + y + z <= Pairs(runs, whole);
    SubsetCounts(x + y + z, Pairs(runs, whole));
  }

  /** Supported, contradicted and stale claims are different claims. */
  lemma ClaimParts(db: Db)
    ensures Parts(SupportedIn(db), ContradictedIn(db), StaleIn(db), ClaimsIn(db))
  {
  }

  lemma PartsStayBelow(db: Db, runs: set<string>)
    ensures var k := KnowledgeOf(db, runs); k.supported + k.contradicted + k.stale <= k.claims
  {
    ClaimParts(db);
    PairsOfParts(runs, SupportedIn(db), ContradictedIn(db), StaleIn(db), ClaimsIn(db));
  }

  // ---- Percentages

  function Percentage(numerator: nat, denominator: nat): int {
    if denominator == 0 then 0 else (numerator as real / denominator as real * 100.0 + 0.5).Floor
  }

  lemma PercentageIsBounded(numerator: nat, denominator: nat)
    requires numerator <= denominator
    ensures 0 <= Percentage(numerator, denominator) <= 100
    ensures numerator == denominator > 0 ==> Percentage(numerator, denominator) == 100
  {
    if denominator > 0 {
      var x := numerator as real / denominator as real;
      assert x * denominator as real == numerator as real;
      assert 0.0 <= x <= 1.0;
      assert numerator == denominator ==> x == 1.0;
    }
  }
}
