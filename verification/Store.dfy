/** The in-memory repository (apps/control-plane/internal/store/memory.go). `Db` is its
    contents as a value, with every operation as a function of it. */
module Store {
  import opened Text
  import opened Domain
  import Sorting

  datatype Db = Db(
    runs: map<string, Run>, decisions: map<string, Decision>, claims: map<string, Claim>,
    evidence: map<string, Evidence>, relations: map<string, Relation>, assumptions: map<string, Assumption>,
    unknowns: map<string, Unknown>, verifications: map<string, Verification>, certificates: map<string, Certificate>)

  const EMPTY := Db(map[], map[], map[], map[], map[], map[], map[], map[], map[])

  // What a Go map yields for a missing key.
  const NO_RUN := Run("", "", "", "", Ingesting, "", [], 0, "", "", "")
  const NO_DECISION := Decision("", "", "", "", "", None, false, false, [], [], 0, None)
  const NO_SUPPORT := Support(0.0, 0.0, 0.0, 0.0, 0.0, 0.0, 0.0, 0.0, "")
  const NO_CLAIM := Claim("", "", "", "", false, "", [], Unsupported, "", NO_SUPPORT, [], 0)

  function ClaimId(c: Claim): string { c.id }
  function EvidenceId(e: Evidence): string { e.id }
  function RelationId(r: Relation): string { r.id }
  function AssumptionId(a: Assumption): string { a.id }
  function UnknownId(u: Unknown): string { u.id }
  function VerificationId(v: Verification): string { v.id }

  function RunOf(db: Db, id: string): Run {
    if id in db.runs then db.runs[id] else NO_RUN
  }

  function DecisionOf(db: Db, id: string): Decision {
    if id in db.decisions then db.decisions[id] else NO_DECISION
  }

  function ClaimOf(db: Db, id: string): Claim {
    if id in db.claims then db.claims[id] else NO_CLAIM
  }

  // ---- Inserting lists

  function PutAll<T>(m: map<string, T>, items: seq<T>, key: T -> string): map<string, T> {
    if items == [] then m
    else
      var last := items[|items| - 1];
      PutAll(m, items[..|items| - 1], key)[key(last) := last]
  }

  ghost predicate HasKey<T>(items: seq<T>, key: T -> string, k: string) {
    exists i | 0 <= i < |items| :: key(items[i]) == k
  }

  ghost predicate DistinctKeys<T>(items: seq<T>, key: T -> string) {
    forall i, j | 0 <= i < j < |items| :: key(items[i]) != key(items[j])
  }

  lemma HasKeyOfOneMore<T>(items: seq<T>, item: T, key: T -> string, k: string)
    ensures HasKey(items + [item], key, k) <==> HasKey(items, key, k) || key(item) == k
  {
    var more := items + [item];
    if HasKey(items, key, k) {
      var i :| 0 <= i < |items| && key(items[i]) == k;
      assert key(more[i]) == k;
    }
    assert more[|items|] == item;
  }

  /** One key after inserting a list: present when it was or when an item has it, and
      holding the old value when no item has it. */
  lemma {:induction false} PutAllKey<T>(m: map<string, T>, items: seq<T>, key: T -> string, k: string)
    ensures k in PutAll(m, items, key) <==> k in m || HasKey(items, key, k)
    ensures k in m && !HasKey(items, key, k) ==> PutAll(m, items, key)[k] == m[k]
    ensures HasKey(items, key, k) ==> PutAll(m, items, key)[k] in items && key(PutAll(m, items, key)[k]) == k
  {
    if items != [] {
      var front, last := items[..|items| - 1], items[|items| - 1];
      PutAllKey(m, front, key, k);
      HasKeyOfOneMore(front, last, key, k);
      assert items == front + [last];
    }
  }

  lemma DistinctKeyIsTheItem<T>(m: map<string, T>, items: seq<T>, key: T -> string, i: nat)
    requires DistinctKeys(items, key) && i < |items|
    ensures key(items[i]) in PutAll(m, items, key) && PutAll(m, items, key)[key(items[i])] == items[i]
  {
    assert HasKey(items, key, key(items[i]));
    PutAllKey(m, items, key, key(items[i]));
  }

  method PutEach<T>(m: map<string, T>, items: seq<T>, key: T -> string) returns (r: map<string, T>)
    ensures r == PutAll(m, items, key)
  {
    r := m;
    for i := 0 to |items|
      invariant r == PutAll(m, items[..i], key)
    {
      assert items[..i + 1][..i] == items[..i];
      r := r[key(items[i]) := items[i]];
    }
    assert items[..|items|] == items;
  }

  // ---- Collecting the values of a map, sorted by ID

  ghost predicate Keyed<T>(m: map<string, T>, key: T -> string) {
    forall k | k in m :: key(m[k]) == k
  }

  function Listing<T>(m: map<string, T>, pick: T -> bool): (listed: seq<T>) {
    var keys := SortedKeys(set k | k in m && pick(m[k]));
    seq(|keys|, i requires 0 <= i < |keys| => assert keys[i] in keys; m[keys[i]])
  }

  ghost predicate StrictlyById<T>(s: seq<T>, key: T -> string) {
    forall i, j | 0 <= i < j < |s| :: Precedes(key(s[i]), key(s[j]))
  }

  lemma ListingHolds<T>(m: map<string, T>, pick: T -> bool, key: T -> string)
    requires Keyed(m, key)
    ensures forall x :: x in Listing(m, pick) <==> key(x) in m && m[key(x)] == x && pick(x)
    ensures StrictlyById(Listing(m, pick), key)
    ensures |Listing(m, pick)| == |set k | k in m && pick(m[k])|
  {
    var keys := SortedKeys(set k | k in m && pick(m[k]));
    var listed := Listing(m, pick);
    forall x ensures x in listed <==> key(x) in m && m[key(x)] == x && pick(x) {
      if x in listed {
        var i :| 0 <= i < |listed| && listed[i] == x;
        assert keys[i] in keys;
      }
      if key(x) in m && m[key(x)] == x && pick(x) {
        assert key(x) in keys;
        var i :| 0 <= i < |keys| && keys[i] == key(x);
        assert listed[i] == x;
      }
    }
    forall i, j | 0 <= i < j < |listed| ensures Precedes(key(listed[i]), key(listed[j])) {
      assert keys[i] in keys && keys[j] in keys;
    }
  }

  function IdOrder<T>(key: T -> string): (T, T) -> bool {
    (a, b) => Precedes(key(a), key(b))
  }

  lemma IdOrderIsStrictWeak<T(!new)>(key: T -> string)
    ensures Sorting.StrictWeakOrder(IdOrder(key))
  {
    var less := IdOrder(key);
    forall x, y ensures less(x, y) ==> !less(y, x) {
      PrecedesIsLinear(key(x), key(y));
    }
    forall x, y, z | less(x, y) && less(y, z) ensures less(x, z) {
      PrecedesIsTransitive(key(x), key(y), key(z));
    }
    forall x, y, z | !less(x, y) && !less(y, z) ensures !less(x, z) {
      PrecedesIsLinear(key(x), key(y));
      PrecedesIsLinear(key(y), key(z));
      PrecedesIsLinear(key(x), key(z));
      if less(x, z) && less(z, y) {
        PrecedesIsTransitive(key(x), key(z), key(y));
      }
      if less(y, x) && less(x, z) {
        PrecedesIsTransitive(key(y), key(x), key(z));
      }
    }
  }

  /** One map loop of `graph` with its `sort.Slice`: the iteration order is arbitrary, the
      sorted result is not. */
  method Collect<T(!new)>(m: map<string, T>, pick: T -> bool, key: T -> string) returns (listed: seq<T>)
    requires Keyed(m, key)
    ensures listed == Listing(m, pick)
  {
    var found: seq<T> := [];
    ghost var ids: seq<string> := [];
    var todo := m.Keys;
    while todo != {}
      invariant todo <= m.Keys
      invariant |ids| == |found|
      invariant forall i | 0 <= i < |found| :: ids[i] in m && ids[i] !in todo && found[i] == m[ids[i]] && pick(found[i])
      invariant forall i, j | 0 <= i < j < |ids| :: ids[i] != ids[j]
      invariant forall k | k in m && k !in todo && pick(m[k]) :: k in ids
    {
      var k :| k in todo;
      if pick(m[k]) {
        found := found + [m[k]];
        ids := ids + [k];
      }
      todo := todo - {k};
    }
    listed := Sorting.Sort(found, IdOrder(key));
    forall x ensures x in found <==> key(x) in m && m[key(x)] == x && pick(x) {
      if key(x) in m && m[key(x)] == x && pick(x) {
        var i :| 0 <= i < |ids| && ids[i] == key(x);
        assert found[i] == x;
      }
    }
    SortedIsListing(m, pick, key, found);
  }

  function KeysOf<T>(s: seq<T>, key: T -> string): (keys: seq<string>)
    ensures |keys| == |s|
    ensures forall i | 0 <= i < |s| :: keys[i] == key(s[i])
  {
    seq(|s|, i requires 0 <= i < |s| => key(s[i]))
  }

  lemma KeysOfMembers<T>(s: seq<T>, key: T -> string, k: string)
    ensures k in KeysOf(s, key) <==> exists x :: x in s && key(x) == k
  {
    if k in KeysOf(s, key) {
      var i :| 0 <= i < |s| && KeysOf(s, key)[i] == k;
      assert s[i] in s;
    }
    if x :| x in s && key(x) == k {
      var i :| 0 <= i < |s| && s[i] == x;
      assert KeysOf(s, key)[i] == k;
    }
  }

  /** Two lists sorted by ID with the same members, all keyed alike, are one list. */
  lemma SortedByIdAgree<T>(a: seq<T>, b: seq<T>, m: map<string, T>, key: T -> string)
    requires StrictlyById(a, key) && StrictlyById(b, key)
    requires forall x :: x in a <==> x in b
    requires forall x | x in a :: key(x) in m && m[key(x)] == x
    ensures a == b
  {
    forall k ensures k in KeysOf(a, key) <==> k in KeysOf(b, key) {
      KeysOfMembers(a, key, k);
      KeysOfMembers(b, key, k);
    }
    OrderedListsWithSameMembersAgree(KeysOf(a, key), KeysOf(b, key));
    forall i | 0 <= i < |a| ensures |a| == |b| && a[i] == b[i] {
      assert KeysOf(a, key)[i] == KeysOf(b, key)[i];
      assert a[i] in a && b[i] in b;
    }
  }

  lemma SortedIsListing<T(!new)>(m: map<string, T>, pick: T -> bool, key: T -> string, found: seq<T>)
    requires Keyed(m, key)
    requires forall x :: x in found <==> key(x) in m && m[key(x)] == x && pick(x)
    requires DistinctKeys(found, key)
    ensures Sorting.Sort(found, IdOrder(key)) == Listing(m, pick)
  {
    var sorted := Sorting.Sort(found, IdOrder(key));
    var listed := Listing(m, pick);
    ListingHolds(m, pick, key);
    SortedStrictly(found, key);
    forall x ensures x in sorted <==> x in listed
             ensures x in sorted ==> key(x) in m && m[key(x)] == x {
      Sorting.SortKeepsMembers(found, IdOrder(key), x);
      assert x in found <==> x in listed;
    }
    SortedByIdAgree(sorted, listed, m, key);
  }

  lemma SortedStrictly<T(!new)>(found: seq<T>, key: T -> string)
    requires DistinctKeys(found, key)
    ensures StrictlyById(Sorting.Sort(found, IdOrder(key)), key)
  {
    var less := IdOrder(key);
    var sorted := Sorting.Sort(found, less);
    IdOrderIsStrictWeak(key);
    Sorting.SortOrders(found, less);
    SortKeepsDistinctKeys(found, less, key);
    forall i, j | 0 <= i < j < |sorted| ensures Precedes(key(sorted[i]), key(sorted[j])) {
      var a, b := key(sorted[i]), key(sorted[j]);
      assert a != b && !less(sorted[j], sorted[i]);
      PrecedesIsLinear(a, b);
    }
  }

  /** Sorting does not make two elements share a key. */
  lemma SortKeepsDistinctKeys<T>(found: seq<T>, less: (T, T) -> bool, key: T -> string)
    requires DistinctKeys(found, key)
    ensures DistinctKeys(Sorting.Sort(found, less), key)
  {
    var sorted := Sorting.Sort(found, less);
    Sorting.SortPermutes(found, less);
    forall i, j | 0 <= i < j < |sorted| ensures key(sorted[i]) != key(sorted[j]) {
      if key(sorted[i]) == key(sorted[j]) {
        assert sorted[i] in multiset(found) && sorted[j] in multiset(found);
        DistinctKeysMeanOnce(found, key, sorted[i]);
        if sorted[i] == sorted[j] {
          TwicePresent(sorted, i, j);
        }
      }
    }
  }

  lemma {:induction false} DistinctKeysMeanOnce<T>(s: seq<T>, key: T -> string, x: T)
    requires forall i, j | 0 <= i < j < |s| :: key(s[i]) != key(s[j])
    ensures multiset(s)[x] <= 1
    ensures forall y | y in s && x in s && key(x) == key(y) :: x == y
  {
    if s != [] {
      DistinctKeysMeanOnce(s[1..], key, x);
      assert s == [s[0]] + s[1..];
    }
  }

  lemma TwicePresent<T>(s: seq<T>, i: nat, j: nat)
    requires i < j < |s| && s[i] == s[j]
    ensures multiset(s)[s[i]] >= 2
  {
    assert s == s[..i] + [s[i]] + s[i + 1..j] + [s[j]] + s[j + 1..];
  }

  // ---- The operations as functions

  function CreateRun(db: Db, run: Run, decision: Decision): Db {
    db.(runs := db.runs[run.id := run], decisions := db.decisions[decision.id := decision])
  }

  /** The first stored event with this non-empty external ID. */
  function FindExternal(events: seq<Event>, externalId: string): (found: Option<nat>)
    ensures found.Some? ==> found.value < |events| && events[found.value].externalId == externalId && externalId != ""
    ensures found.None? ==> externalId == "" || forall i | 0 <= i < |events| :: events[i].externalId != externalId
  {
    if events == [] || externalId == "" then None
    else if events[0].externalId == externalId then Some(0)
    else
      match FindExternal(events[1..], externalId)
      case None => None
      case Some(i) => Some(i + 1)
  }

  datatype Added = NoSuchRun | Added(event: Event, created: bool)

  function Numbered(events: seq<Event>, e: Event): Event {
    if e.sequence == 0 then e.(sequence := |events| + 1) else e
  }

  function AddEvent(db: Db, id: string, e: Event): (Db, Added) {
    if id !in db.runs then (db, NoSuchRun)
    else
      var run := db.runs[id];
      match FindExternal(run.events, e.externalId)
      case Some(i) => (db, Added(run.events[i], false))
      case None =>
        var stored := Numbered(run.events, e);
        (db.(runs := db.runs[id := run.(events := run.events + [stored])]), Added(stored, true))
  }

  function ClaimIds(claims: seq<Claim>): seq<string> {
    seq(|claims|, i requires 0 <= i < |claims| => claims[i].id)
  }

  /** The caller has checked that the run exists. */
  function SaveAnalysis(db: Db, runId: string, a: Analysis): Db
    requires runId in db.runs
  {
    var run := db.runs[runId];
    var d := DecisionOf(db, run.decision).(claims := ClaimIds(a.claims));
    db.(runs := db.runs[runId := run.(status := Analyzed)],
        claims := PutAll(db.claims, a.claims, ClaimId),
        evidence := PutAll(db.evidence, a.evidence, EvidenceId),
        relations := PutAll(db.relations, a.relations, RelationId),
        assumptions := PutAll(db.assumptions, a.assumptions, AssumptionId),
        unknowns := PutAll(db.unknowns, a.unknowns, UnknownId),
        decisions := db.decisions[d.id := d])
  }

  function ClaimsOf(db: Db, d: string): seq<Claim> { Listing(db.claims, (c: Claim) => c.decision == d) }
  function EvidenceOf(db: Db, run: string): seq<Evidence> { Listing(db.evidence, (e: Evidence) => e.run == run) }
  function AssumptionsOf(db: Db, d: string): seq<Assumption> { Listing(db.assumptions, (a: Assumption) => a.decision == d) }
  function UnknownsOf(db: Db, d: string): seq<Unknown> { Listing(db.unknowns, (u: Unknown) => u.decision == d) }
  function VerificationsOf(db: Db, d: string): seq<Verification> { Listing(db.verifications, (v: Verification) => v.decision == d) }

  /** The IDs a relation of this run's graph may connect. */
  function Objects(db: Db, run: string, d: string): set<string> {
    {d, run} + (set k | k in db.claims && db.claims[k].decision == d)
    + (set k | k in db.evidence && db.evidence[k].run == run)
    + (set k | k in db.verifications && db.verifications[k].decision == d)
  }

  function RelationsOf(db: Db, run: string, d: string): seq<Relation> {
    var objects := Objects(db, run, d);
    Listing(db.relations, (r: Relation) => r.from in objects && r.to in objects)
  }

  function Project(db: Db, run: Run): Graph {
    var d := DecisionOf(db, run.decision);
    Graph(run, d, ClaimsOf(db, d.id), EvidenceOf(db, run.id), RelationsOf(db, run.id, d.id), AssumptionsOf(db, d.id),
          UnknownsOf(db, d.id), VerificationsOf(db, d.id))
  }

  function SaveVerifications(db: Db, checks: seq<Verification>): Db {
    db.(verifications := PutAll(db.verifications, checks, VerificationId))
  }

  function AfterPass(c: Claim): Claim {
    c.(state := ExternallyVerified, support := c.support.(direct := 1.0, value := 1.0))
  }

  function AfterFailure(c: Claim): Claim {
    c.(state := ClaimState.Contradicted, support := c.support.(burden := 1.0, value := 0.0))
  }

  function CheckRelation(c: Claim, v: Verification): Relation {
    Relation(VerifiedRelationId(v.id), c.id, v.id, VerifiedBy,
             (if v.outcome == "passed" then "Controlled verification passed; artifact "
              else "Controlled verification failed; artifact ") + v.artifactHash)
  }

  function ResolveCritical(unknowns: map<string, Unknown>, d: string): map<string, Unknown> {
    map k | k in unknowns ::
      if unknowns[k].decision == d && unknowns[k].critical then unknowns[k].(resolved := true) else unknowns[k]
  }

  /** The caller has checked that the verification exists. */
  function UpdateVerification(db: Db, v: Verification): (t: Db)
    ensures t == db.(verifications := t.verifications, claims := t.claims, relations := t.relations, unknowns := t.unknowns)
    ensures t.verifications == db.verifications[v.id := v]
  {
    var stored := db.(verifications := db.verifications[v.id := v]);
    if v.outcome == "passed" then
      var c := AfterPass(ClaimOf(db, v.claim));
      stored.(claims := db.claims[c.id := c], relations := db.relations[VerifiedRelationId(v.id) := CheckRelation(c, v)],
              unknowns := ResolveCritical(db.unknowns, v.decision))
    else if v.outcome == "failed" then
      var c := AfterFailure(ClaimOf(db, v.claim));
      stored.(claims := db.claims[c.id := c], relations := db.relations[VerifiedRelationId(v.id) := CheckRelation(c, v)])
    else stored
  }

  function SaveDecision(db: Db, d: Decision): Db {
    db.(decisions := db.decisions[d.id := d])
  }

  function SaveCertificate(db: Db, c: Certificate): Db {
    if c.decision in db.certificates then db else db.(certificates := db.certificates[c.decision := c])
  }

  ghost predicate KeyedById(db: Db) {
    && (forall k | k in db.runs :: db.runs[k].id == k)
    && (forall k | k in db.decisions :: db.decisions[k].id == k)
    && Keyed(db.claims, ClaimId) && Keyed(db.evidence, EvidenceId) && Keyed(db.relations, RelationId)
    && Keyed(db.assumptions, AssumptionId) && Keyed(db.unknowns, UnknownId) && Keyed(db.verifications, VerificationId)
    && (forall k | k in db.certificates :: db.certificates[k].decision == k)
  }
}
