/** What an issued certificate says, field by field, in terms of the stored tables alone. */
module IssuedCertificates {
  import opened Text
  import opened Domain
  import opened Store
  import opened Service
  import opened Lifecycle
  import opened RunHistory
  import Policy

  // ---- Hashes

  ghost function EvidenceWith(db: Db, run: string, hash: string): set<string> {
    set k | k in db.evidence && db.evidence[k].run == run && db.evidence[k].contentHash == hash
  }

  ghost function ChecksWith(db: Db, d: string, hash: string): set<string> {
    set k | k in db.verifications && db.verifications[k].decision == d && db.verifications[k].artifactHash == hash
  }

  /** Sorted, and each non-empty hash as often as evidence of the run and checks of the
      decision carry it. */
  ghost predicate HashesFor(db: Db, run: string, d: string, hashes: seq<string>) {
    && (forall i, j | 0 <= i < j < |hashes| :: !Precedes(hashes[j], hashes[i]))
    && "" !in hashes
    && forall h | h != "" :: multiset(hashes)[h] == |EvidenceWith(db, run, h)| + |ChecksWith(db, d, h)|
  }

  ghost function At<T>(items: seq<T>, n: nat, q: T -> bool): set<nat>
    requires n <= |items|
  {
    set i: nat | i < n && q(items[i])
  }

  lemma AtOneMore<T>(items: seq<T>, n: nat, q: T -> bool)
    requires n < |items|
    ensures |At(items, n + 1, q)| == |At(items, n, q)| + if q(items[n]) then 1 else 0
  {
    assert At(items, n + 1, q) == At(items, n, q) + if q(items[n]) then {n} else {};
  }

  /** The keys among these whose entries pass. */
  ghost function Passing<T>(m: map<string, T>, keys: set<string>, q: T -> bool): set<string> {
    set k | k in keys && k in m && q(m[k])
  }

  lemma PassingOneMore<T>(m: map<string, T>, keys: set<string>, k: string, q: T -> bool)
    requires k in m && k !in keys
    ensures |Passing(m, keys + {k}, q)| == |Passing(m, keys, q)| + if q(m[k]) then 1 else 0
  {
    assert Passing(m, keys + {k}, q) == Passing(m, keys, q) + if q(m[k]) then {k} else {};
  }

  ghost function First(keys: seq<string>, n: nat): set<string>
    requires n <= |keys|
  {
    set k | k in keys[..n]
  }

  lemma FirstOneMore(keys: seq<string>, n: nat)
    requires n < |keys| && forall i, j | 0 <= i < j < |keys| :: keys[i] != keys[j]
    ensures First(keys, n + 1) == First(keys, n) + {keys[n]} && keys[n] !in First(keys, n)
  {
    assert keys[..n + 1] == keys[..n] + [keys[n]];
  }

  /** As many positions of a listing pass as keys of the table. */
  lemma {:induction false} FirstCount<T>(m: map<string, T>, keys: seq<string>, listed: seq<T>, n: nat, q: T -> bool)
    requires n <= |keys| == |listed| && forall i | 0 <= i < |keys| :: keys[i] in m && listed[i] == m[keys[i]]
    requires forall i, j | 0 <= i < j < |keys| :: keys[i] != keys[j]
    ensures |At(listed, n, q)| == |Passing(m, First(keys, n), q)|
  {
    hide At, Passing, First;
    if n == 0 {
      NothingPasses(m, keys, listed, q);
    } else {
      FirstCount(m, keys, listed, n - 1, q);
      AtOneMore(listed, n - 1, q);
      FirstOneMore(keys, n - 1);
      PassingOneMore(m, First(keys, n - 1), keys[n - 1], q);
    }
  }

  lemma NothingPasses<T>(m: map<string, T>, keys: seq<string>, listed: seq<T>, q: T -> bool)
    ensures At(listed, 0, q) == {} && Passing(m, First(keys, 0), q) == {}
  {
  }

  ghost function Picked<T>(m: map<string, T>, pick: T -> bool): set<string> {
    set k | k in m && pick(m[k])
  }

  lemma ListedCount<T>(m: map<string, T>, pick: T -> bool, q: T -> bool)
    ensures |At(Listing(m, pick), |Listing(m, pick)|, q)| == |Passing(m, Picked(m, pick), q)|
  {
    hide At, Passing;
    var picked := set k | k in m && pick(m[k]);
    assert picked == Picked(m, pick);
    var keys, listed := SortedKeys(picked), Listing(m, pick);
    forall i, j | 0 <= i < j < |keys| ensures keys[i] != keys[j] {
      PrecedesIsLinear(keys[i], keys[j]);
    }
    assert forall i | 0 <= i < |keys| :: keys[i] in keys;
    FirstCount(m, keys, listed, |listed|, q);
    assert keys[..|keys|] == keys;
    assert First(keys, |keys|) == picked;
  }

  ghost function ContentIs(hash: string): Evidence -> bool { (e: Evidence) => e.contentHash == hash }
  ghost function ArtifactIs(hash: string): Verification -> bool { (v: Verification) => v.artifactHash == hash }

  lemma {:induction false} EvidenceHashCount(items: seq<Evidence>, n: nat, hash: string)
    requires n <= |items| && hash != ""
    ensures multiset(EvidenceHashes(items[..n]))[hash] == |At(items, n, ContentIs(hash))|
    ensures "" !in EvidenceHashes(items[..n])
  {
    var q := ContentIs(hash);
    if n == 0 {
      assert At(items, 0, q) == {};
    } else {
      EvidenceHashCount(items, n - 1, hash);
      AtOneMore(items, n - 1, q);
      assert items[..n][..n - 1] == items[..n - 1];
    }
  }

  lemma {:induction false} CheckHashCount(items: seq<Verification>, n: nat, hash: string)
    requires n <= |items| && hash != ""
    ensures multiset(CheckHashes(items[..n]))[hash] == |At(items, n, ArtifactIs(hash))|
    ensures "" !in CheckHashes(items[..n])
  {
    var q := ArtifactIs(hash);
    if n == 0 {
      assert At(items, 0, q) == {};
    } else {
      CheckHashCount(items, n - 1, hash);
      AtOneMore(items, n - 1, q);
      assert items[..n][..n - 1] == items[..n - 1];
    }
  }

  lemma HashesCounted(db: Db, run: string, d: string, h: string)
    requires h != ""
    ensures multiset(EvidenceHashes(Store.EvidenceOf(db, run)))[h] == |EvidenceWith(db, run, h)|
    ensures multiset(CheckHashes(VerificationsOf(db, d)))[h] == |ChecksWith(db, d, h)|
    ensures "" !in EvidenceHashes(Store.EvidenceOf(db, run)) && "" !in CheckHashes(VerificationsOf(db, d))
  {
    EvidenceCounted(db, run, h);
    ChecksCounted(db, d, h);
  }

  lemma EvidenceListed(db: Db, run: string, h: string)
    ensures var items := Store.EvidenceOf(db, run);
            |At(items, |items|, ContentIs(h))| == |EvidenceWith(db, run, h)|
  {
    hide At, Listing;
    ListedCount(db.evidence, (e: Evidence) => e.run == run, ContentIs(h));
    EvidencePasses(db, run, h, (e: Evidence) => e.run == run, ContentIs(h));
  }

  lemma EvidencePasses(db: Db, run: string, h: string, pick: Evidence -> bool, q: Evidence -> bool)
    requires forall e :: (pick(e) <==> e.run == run) && (q(e) <==> e.contentHash == h)
    ensures EvidenceWith(db, run, h) == Passing(db.evidence, Picked(db.evidence, pick), q)
  {
  }

  lemma ChecksListed(db: Db, d: string, h: string)
    ensures var checks := VerificationsOf(db, d);
            |At(checks, |checks|, ArtifactIs(h))| == |ChecksWith(db, d, h)|
  {
    hide At, Listing;
    ListedCount(db.verifications, (v: Verification) => v.decision == d, ArtifactIs(h));
    ChecksPass(db, d, h, (v: Verification) => v.decision == d, ArtifactIs(h));
  }

  lemma ChecksPass(db: Db, d: string, h: string, pick: Verification -> bool, q: Verification -> bool)
    requires forall v :: (pick(v) <==> v.decision == d) && (q(v) <==> v.artifactHash == h)
    ensures ChecksWith(db, d, h) == Passing(db.verifications, Picked(db.verifications, pick), q)
  {
  }

  lemma EvidenceCounted(db: Db, run: string, h: string)
    requires h != ""
    ensures var items := Store.EvidenceOf(db, run);
            multiset(EvidenceHashes(items))[h] == |EvidenceWith(db, run, h)| && "" !in EvidenceHashes(items)
  {
    hide At, EvidenceHashes, Store.EvidenceOf, EvidenceWith;
    var items := Store.EvidenceOf(db, run);
    EvidenceHashCount(items, |items|, h);
    assert items[..|items|] == items;
    EvidenceListed(db, run, h);
  }

  lemma ChecksCounted(db: Db, d: string, h: string)
    requires h != ""
    ensures var checks := VerificationsOf(db, d);
            multiset(CheckHashes(checks))[h] == |ChecksWith(db, d, h)| && "" !in CheckHashes(checks)
  {
    hide At, CheckHashes, VerificationsOf, ChecksWith;
    var checks := VerificationsOf(db, d);
    CheckHashCount(checks, |checks|, h);
    assert checks[..|checks|] == checks;
    ChecksListed(db, d, h);
  }

  lemma HashesAreFor(db: Db, run: string, d: string, hashes: seq<string>)
    requires SortedText(hashes)
    requires multiset(hashes) == multiset(EvidenceHashes(Store.EvidenceOf(db, run))) + multiset(CheckHashes(VerificationsOf(db, d)))
    ensures HashesFor(db, run, d, hashes)
  {
    hide EvidenceHashes, CheckHashes, Store.EvidenceOf, VerificationsOf, EvidenceWith, ChecksWith;
    forall h | h != "" ensures multiset(hashes)[h] == |EvidenceWith(db, run, h)| + |ChecksWith(db, d, h)| {
      HashesCounted(db, run, d, h);
    }
    HashesCounted(db, run, d, "-");
    assert "" in hashes <==> "" in multiset(hashes);
  }

  // ---- Lists

  /** The stored claims of the decision, in the order of their IDs. */
  ghost predicate ListsClaims(db: Db, d: string, claims: seq<Claim>) {
    && (forall c :: c in claims <==> c.id in db.claims && db.claims[c.id] == c && c.decision == d)
    && (forall i, j | 0 <= i < j < |claims| :: Precedes(claims[i].id, claims[j].id))
  }

  ghost predicate ListsChecks(db: Db, d: string, checks: seq<Verification>) {
    && (forall v :: v in checks <==> v.id in db.verifications && db.verifications[v.id] == v && v.decision == d)
    && (forall i, j | 0 <= i < j < |checks| :: Precedes(checks[i].id, checks[j].id))
  }

  lemma ClaimsAreListed(db: Db, d: string)
    requires KeyedById(db)
    ensures ListsClaims(db, d, ClaimsOf(db, d))
  {
    ListingHolds(db.claims, (c: Claim) => c.decision == d, ClaimId);
    assert StrictlyById(ClaimsOf(db, d), ClaimId);
  }

  lemma ChecksAreListed(db: Db, d: string)
    requires KeyedById(db)
    ensures ListsChecks(db, d, VerificationsOf(db, d))
  {
    ListingHolds(db.verifications, (v: Verification) => v.decision == d, VerificationId);
    assert StrictlyById(VerificationsOf(db, d), VerificationId);
  }

  // ---- The verdict

  /** The certified claims pass and no critical unknown of the decision is open. */
  ghost predicate Cleared(db: Db, d: string, claims: seq<Claim>) {
    Policy.Passable(claims, []) && forall k | k in db.unknowns && db.unknowns[k].decision == d && db.unknowns[k].critical :: db.unknowns[k].resolved
  }

  lemma UnknownsDecide(db: Db, d: string, claims: seq<Claim>)
    requires KeyedById(db)
    ensures Policy.Passable(claims, UnknownsOf(db, d)) <==> Cleared(db, d, claims)
  {
    hide Policy.Passable, UnknownsOf, KeyedById;
    Policy.PassableSplits(claims, UnknownsOf(db, d));
    OpenUnknownsListed(db, d);
  }

  lemma OpenUnknownsListed(db: Db, d: string)
    requires KeyedById(db)
    ensures Policy.NoneOpen(UnknownsOf(db, d))
            <==> forall k | k in db.unknowns && db.unknowns[k].decision == d && db.unknowns[k].critical :: db.unknowns[k].resolved
  {
    var listed := UnknownsOf(db, d);
    assert Keyed(db.unknowns, UnknownId);
    hide Listing, KeyedById;
    UnknownsListed(db, d);
    if Policy.NoneOpen(listed) {
      forall k | k in db.unknowns && db.unknowns[k].decision == d && db.unknowns[k].critical ensures db.unknowns[k].resolved {
        assert UnknownId(db.unknowns[k]) == k && db.unknowns[k] in listed;
        var i :| 0 <= i < |listed| && listed[i] == db.unknowns[k];
      }
    } else {
      var i :| 0 <= i < |listed| && listed[i].critical && !listed[i].resolved;
      assert listed[i] in listed;
    }
  }

  lemma UnknownsListed(db: Db, d: string)
    requires Keyed(db.unknowns, UnknownId)
    ensures forall u :: u in UnknownsOf(db, d) <==> u.id in db.unknowns && db.unknowns[u.id] == u && u.decision == d
  {
    ListingHolds(db.unknowns, (u: Unknown) => u.decision == d, UnknownId);
  }

  ghost predicate VerdictFor(db: Db, d: string, approved: bool, c: Certificate) {
    && (c.actionAllowed <==> approved && Cleared(db, d, c.claims))
    && (c.verdict.Verified? || c.verdict.VerifiedWithConditions? <==> Cleared(db, d, c.claims))
    && (c.verdict.Verified? ==> forall x | x in c.claims && x.critical :: x.state.Supported?)
    && (c.verdict.VerifiedWithConditions? ==> exists x :: x in c.claims && x.critical && !x.state.Supported?)
    && (c.verdict.RejectedVerdict? <==> exists x :: x in c.claims && x.state.Rejected?)
    && (c.verdict.ContradictedVerdict? <==>
          && (forall x | x in c.claims :: !x.state.Rejected?)
          && (exists x :: x in c.claims && x.critical) && (exists x :: x in c.claims && x.state.Contradicted?))
    && (if Cleared(db, d, c.claims) then Policy.ConditionsFor(c.conditions, c.claims) else c.conditions == [])
  }

  lemma JudgementIsFor(db: Db, d: string, approved: bool, c: Certificate)
    requires KeyedById(db)
    requires var r := Policy.Judge(c.claims, UnknownsOf(db, d), approved);
             c.verdict == r.verdict && c.actionAllowed == r.actionAllowed && c.conditions == r.conditions
    ensures VerdictFor(db, d, approved, c)
  {
    hide Policy.Judge, Policy.Passable, Policy.ConditionsFor, Cleared, UnknownsOf, KeyedById;
    Policy.JudgedExactly(c.claims, UnknownsOf(db, d), approved);
    UnknownsDecide(db, d, c.claims);
    if i :| 0 <= i < |c.claims| && c.claims[i].critical && !c.claims[i].state.Supported? {
      assert c.claims[i] in c.claims;
    }
    if i :| 0 <= i < |c.claims| && c.claims[i].state.Rejected? {
      assert c.claims[i] in c.claims;
    }
    if i :| 0 <= i < |c.claims| && c.claims[i].state.Contradicted? {
      assert c.claims[i] in c.claims;
    }
    if i :| 0 <= i < |c.claims| && c.claims[i].critical {
      assert c.claims[i] in c.claims;
    }
  }

  // ---- The whole certificate

  ghost predicate Says(db: Db, d: string, approved: bool, c: Certificate, hashes: Hashes, now: int)
    requires d in db.decisions
  {
    var r := db.decisions[d];
    && c.version == "1.0" && c.decision == d && c.run == r.run && c.recommendation == r.recommendation
    && c.policyVersion == r.policyVersion && c.humanApproved == approved && c.issuedAt == now
    && ListsClaims(db, d, c.claims) && ListsChecks(db, d, c.verifications) && HashesFor(db, r.run, d, c.artifactHashes)
    && VerdictFor(db, d, approved, c)
    && c.algorithm == "SHA-256" && c.digest == hashes.certificate(c.(algorithm := "", digest := ""))
  }

  lemma IssueSays(db: Db, d: string, approved: bool, hashes: Hashes, now: int)
    requires KeyedById(db) && RunsLinked(db.runs, db.decisions) && d in db.decisions
    ensures Says(db, d, approved, Issue(Project(db, RunOf(db, DecisionOf(db, d).run)), approved, hashes, now), hashes, now)
  {
    hide ClaimsOf, VerificationsOf, UnknownsOf, Store.EvidenceOf, EvidenceHashes, CheckHashes, Policy.Judge, HashesFor, ListsClaims,
         ListsChecks, VerdictFor, SortedText;
    var g := Project(db, RunOf(db, DecisionOf(db, d).run));
    var c := Issue(g, approved, hashes, now);
    GraphOfDecision(db, d);
    HashesAreSorted(g);
    IssuedCarriesItsDigest(g, approved, hashes, now);
    ClaimsAreListed(db, d);
    ChecksAreListed(db, d);
    HashesAreFor(db, db.decisions[d].run, d, c.artifactHashes);
    JudgementIsFor(db, d, approved, c);
    assert c.(algorithm := "", digest := "") == Unsigned(g, Judged(g, approved, now), c.verdict, now);
  }

  /** The first evaluation of a decision returns such a certificate, stores it, and marks the
      decision with its verdict, conditions and permission; nothing else changes. */
  lemma FirstEvaluation(w: World, d: string, approved: bool, hashes: Hashes, now: int)
    requires Inv(w, hashes) && d in w.db.decisions && d !in w.db.certificates
    ensures var (t, result) := Service.Evaluate(w.db, d, approved, hashes, now);
            && result.Ok? && Says(w.db, d, approved, result.value, hashes, now)
            && (var c := result.value;
                var judged := w.db.decisions[d].(verdict := Some(c.verdict), conditions := c.conditions, humanApproved := approved,
                                                 actionAllowed := c.actionAllowed, evaluatedAt := Some(now));
                t == w.db.(decisions := w.db.decisions[d := judged], certificates := w.db.certificates[d := c]))
  {
    hide Inv, Says, Policy.Judge, ArtifactHashes;
    InvParts(w, hashes);
    EvaluateResult(w.db, d, approved, hashes, now);
    GraphOfDecision(w.db, d);
    IssueSays(w.db, d, approved, hashes, now);
  }

  /** Any other evaluation stores nothing: it returns the stored certificate, or fails when the
      decision is unknown. */
  lemma OtherEvaluation(w: World, d: string, approved: bool, hashes: Hashes, now: int)
    requires Inv(w, hashes) && (d in w.db.certificates || d !in w.db.decisions)
    ensures Service.Evaluate(w.db, d, approved, hashes, now)
            == (w.db, if d in w.db.certificates then Ok(w.db.certificates[d]) else Failed(NotFound))
  {
  }

  /** Every stored certificate, in every reachable state, says this of the state in which it
      was issued. */
  lemma StoredCertificateSays(worlds: seq<World>, calls: seq<Call>, times: seq<int>, hashes: Hashes, j: nat, d: string)
      returns (k: nat)
    requires History(worlds, calls, times, hashes) && j < |worlds| && d in worlds[j].db.certificates
    ensures k < j && d in worlds[k].db.decisions && calls[k].Judge? && calls[k].decision == d
    ensures Says(worlds[k].db, d, calls[k].approved, worlds[j].db.certificates[d], hashes, times[k])
  {
    hide Says, Inv, After, Service.Evaluate;
    NoCertificateAtFirst(worlds, calls, times, hashes, d);
    k := CertificateWasIssued(worlds, calls, times, hashes, 0, j, d);
    ReachableKeepsInv(worlds, calls, times, hashes, k);
    FirstEvaluation(worlds[k], d, calls[k].approved, hashes, times[k]);
  }

  lemma NoCertificateAtFirst(worlds: seq<World>, calls: seq<Call>, times: seq<int>, hashes: Hashes, d: string)
    requires History(worlds, calls, times, hashes)
    ensures d !in worlds[0].db.certificates
  {
  }
}
