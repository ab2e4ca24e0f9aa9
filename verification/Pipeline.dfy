/** A code-change review from its events to its verdict: analysed, relabelled, stored,
    projected and judged. */
module Pipeline {
  import opened Text
  import opened Domain
  import opened Store
  import opened Service
  import opened Lifecycle
  import opened Review
  import opened RunHistory
  import Policy
  import Relabel

  // ---- What the review promises, in terms of requirements and events

  ghost predicate SomeCritical(list: seq<Requirement>) {
    exists i | 0 <= i < |list| :: list[i].critical
  }

  ghost predicate NoneRefuted(list: seq<Requirement>, run: Run, reader: Reader) {
    forall i | 0 <= i < |list| :: !Refuted(list[i], run, reader)
  }

  ghost predicate CriticalsCovered(list: seq<Requirement>, run: Run, reader: Reader) {
    forall i | 0 <= i < |list| && list[i].critical :: Covered(list[i], run, reader)
  }

  ghost predicate CriticalsPartlyCovered(list: seq<Requirement>, run: Run, reader: Reader) {
    forall i | 0 <= i < |list| && list[i].critical :: PartlyCovered(list[i], run, reader)
  }

  ghost predicate Accepted(list: seq<Requirement>, run: Run, reader: Reader) {
    SomeCritical(list) && NoneRefuted(list, run, reader) && CriticalsCovered(list, run, reader)
  }

  ghost predicate AcceptedWithConditions(list: seq<Requirement>, run: Run, reader: Reader) {
    SomeCritical(list) && NoneRefuted(list, run, reader) && CriticalsPartlyCovered(list, run, reader)
  }

  // ---- The verdict on the analysis itself

  /** The claims stand for the requirements. */
  ghost predicate StandFor(claims: seq<Claim>, list: seq<Requirement>, run: Run, reader: Reader) {
    && |claims| == |list|
    && forall i | 0 <= i < |list| ::
         claims[i].critical == list[i].critical && claims[i].state == RequirementState(list[i], run, reader)
  }

  lemma ClaimStands(r: Requirement, i: nat, run: Run, reader: Reader, now: int)
    ensures ClaimFor(r, i, run, reader, now).critical == r.critical
    ensures ClaimFor(r, i, run, reader, now).state == RequirementState(r, run, reader)
  {
  }

  lemma ReviewedClaimsStand(list: seq<Requirement>, run: Run, reader: Reader, now: int)
    ensures StandFor(Reviewed(list, run, reader, now).claims, list, run, reader)
  {
    var views := ViewsOf(run, reader, now);
    OneClaimPerRequirement(list, EvidenceFromEvents(run, reader), views);
    ViewsSee(run, reader, now);
    forall i | 0 <= i < |list| ensures views.claim(list[i], i).critical == list[i].critical
                               ensures views.claim(list[i], i).state == RequirementState(list[i], run, reader) {
      assert SeesOne(views, list[i], i, run, reader, now);
      ClaimStands(list[i], i, run, reader, now);
    }
  }

  /** Unknowns are raised exactly for critical claims that do not pass. */
  ghost predicate RaisedFor(unknowns: seq<Unknown>, claims: seq<Claim>) {
    && (forall u | u in unknowns :: u.critical && !u.resolved)
    && (unknowns != [] <==> exists c | c in claims :: Open(c))
  }

  lemma RaisedAddNothing(claims: seq<Claim>, unknowns: seq<Unknown>)
    requires RaisedFor(unknowns, claims)
    ensures Policy.CriticalPass(claims) ==> !Policy.OpenCriticalUnknown(unknowns)
  {
    if unknowns != [] {
      var c :| c in claims && Open(c);
      var i :| 0 <= i < |claims| && claims[i] == c;
    }
  }

  /** What the four states of a review mean for the verdict. */
  lemma VerdictOnClaims(claims: seq<Claim>, unknowns: seq<Unknown>, list: seq<Requirement>, run: Run, reader: Reader, approved: bool)
    requires StandFor(claims, list, run, reader) && RaisedFor(unknowns, claims)
    ensures var verdict := Policy.Judge(claims, unknowns, approved).verdict;
            && (verdict.Verified? ==> Accepted(list, run, reader))
            && (verdict.Verified? || verdict.VerifiedWithConditions? ==> AcceptedWithConditions(list, run, reader))
            && (DistinctEvidence(run, reader) ==>
                  && (verdict.Verified? <==> Accepted(list, run, reader))
                  && (verdict.Verified? || verdict.VerifiedWithConditions? <==> AcceptedWithConditions(list, run, reader)))
  {
    Policy.VerifiedExactly(claims, unknowns, approved);
    RaisedAddNothing(claims, unknowns);
    forall i | 0 <= i < |list| ensures Means(claims[i].state, list[i], run, reader) {
      StateMeans(list[i], run, reader);
    }
    MeaningDecides(claims, list, run, reader);
  }

  ghost predicate Means(state: ClaimState, r: Requirement, run: Run, reader: Reader) {
    && (state.Supported? || state.PartiallySupported? || state.Contradicted? || state.VerificationPending?)
    && (state.Contradicted? <==> Refuted(r, run, reader))
    && (state.Supported? ==> Covered(r, run, reader))
    && (state.Supported? || state.PartiallySupported? ==> PartlyCovered(r, run, reader))
    && (DistinctEvidence(run, reader) ==>
          && (state.Supported? <==> Covered(r, run, reader))
          && (state.Supported? || state.PartiallySupported? <==> PartlyCovered(r, run, reader)))
  }

  lemma StateMeans(r: Requirement, run: Run, reader: Reader)
    ensures Means(RequirementState(r, run, reader), r, run, reader)
  {
    StatesMeanCoverage(r, run, reader);
    if Covered(r, run, reader) {
      CoveredIsPartlyCovered(r, run, reader);
    }
  }

  lemma MeaningDecides(claims: seq<Claim>, list: seq<Requirement>, run: Run, reader: Reader)
    requires |claims| == |list|
    requires forall i | 0 <= i < |list| :: claims[i].critical == list[i].critical && Means(claims[i].state, list[i], run, reader)
    ensures !Policy.AnyVerified(claims) && !Policy.AnyIn(claims, ClaimState.Rejected)
    ensures Policy.AnyCritical(claims) <==> SomeCritical(list)
    ensures !Policy.AnyIn(claims, ClaimState.Contradicted) <==> NoneRefuted(list, run, reader)
    ensures Policy.CriticalPass(claims) ==> CriticalsPartlyCovered(list, run, reader)
    ensures Policy.CriticalPass(claims) && !Policy.AnyPartial(claims) ==> CriticalsCovered(list, run, reader)
    ensures DistinctEvidence(run, reader) ==> (Policy.CriticalPass(claims) <==> CriticalsPartlyCovered(list, run, reader))
    ensures DistinctEvidence(run, reader) ==>
              (Policy.CriticalPass(claims) && !Policy.AnyPartial(claims) <==> CriticalsCovered(list, run, reader))
  {
    hide Refuted, Covered, PartlyCovered, DistinctEvidence;
  }

  // ---- Relabelled, stored and projected

  lemma RelabellingKeepsVerdictFields(p: Analysis, n: nat, now: int, d: string)
    ensures var b := Relabel.Relabelled(p, n, now, d);
            && |b.claims| == |p.claims| && |b.unknowns| == |p.unknowns|
            && (forall i | 0 <= i < |p.claims| ::
                  b.claims[i].critical == p.claims[i].critical && b.claims[i].state == p.claims[i].state)
            && (forall i | 0 <= i < |p.unknowns| ::
                  b.unknowns[i].critical == p.unknowns[i].critical && b.unknowns[i].resolved == p.unknowns[i].resolved)
  {
  }

  lemma RaisedForRenamed(claims: seq<Claim>, unknowns: seq<Unknown>, renamed: seq<Claim>, raised: seq<Unknown>)
    requires RaisedFor(unknowns, claims) && |renamed| == |claims| && |raised| == |unknowns|
    requires forall i | 0 <= i < |claims| :: renamed[i].critical == claims[i].critical && renamed[i].state == claims[i].state
    requires forall i | 0 <= i < |unknowns| :: raised[i].critical == unknowns[i].critical && raised[i].resolved == unknowns[i].resolved
    ensures RaisedFor(raised, renamed)
  {
    forall u | u in raised ensures u.critical && !u.resolved {
      var i :| 0 <= i < |raised| && raised[i] == u;
      assert unknowns[i] in unknowns;
    }
    if c :| c in claims && Open(c) {
      var i :| 0 <= i < |claims| && claims[i] == c;
      assert Open(renamed[i]) && renamed[i] in renamed;
    }
    if c :| c in renamed && Open(c) {
      var i :| 0 <= i < |renamed| && renamed[i] == c;
      assert Open(claims[i]) && claims[i] in claims;
    }
  }

  lemma ReviewedRaises(list: seq<Requirement>, run: Run, reader: Reader, now: int)
    ensures RaisedFor(Reviewed(list, run, reader, now).unknowns, Reviewed(list, run, reader, now).claims)
  {
    OpenUnknownsArePending(list, EvidenceFromEvents(run, reader), ViewsOf(run, reader, now));
  }

  lemma RelabelledStand(list: seq<Requirement>, run: Run, reader: Reader, made: int, n: nat, now: int, d: string)
    ensures var b := Relabel.Relabelled(Reviewed(list, run, reader, made), n, now, d);
            StandFor(b.claims, list, run, reader) && RaisedFor(b.unknowns, b.claims)
  {
    var p := Reviewed(list, run, reader, made);
    var b := Relabel.Relabelled(p, n, now, d);
    RelabellingKeepsVerdictFields(p, n, now, d);
    ReviewedClaimsStand(list, run, reader, made);
    ReviewedRaises(list, run, reader, made);
    RaisedForRenamed(p.claims, p.unknowns, b.claims, b.unknowns);
  }

  /** Right after an analysis, the decision's claims and unknowns are the relabelled ones. */
  lemma ProjectedRightAfter(w: World, run: string, p: Analysis, now: int, hashes: Hashes)
    requires Inv(w, hashes) && run in w.db.runs && w.db.runs[run].status.Ingesting?
    ensures var d := w.db.runs[run].decision;
            var b := Relabel.Relabelled(p, w.drawn, now, d);
            var db := SaveAnalysis(w.db, run, b);
            && (forall c :: c in ClaimsOf(db, d) <==> c in b.claims)
            && (forall u :: u in UnknownsOf(db, d) <==> u in b.unknowns)
  {
    var d := w.db.runs[run].decision;
    var b := Relabel.Relabelled(p, w.drawn, now, d);
    RelabelledRelabels(p, w.drawn, now, d);
    SavedTables(w.db, run, b, w.drawn);
    SavingKeepsIds(w.db, run, b);
    UnanalysedOwnsNothing(w, run, hashes);
    ListedRightAfter(w.db, run, b, d);
  }

  lemma ListedRightAfter(a: Db, run: string, b: Analysis, d: string)
    requires run in a.runs && KeyedById(SaveAnalysis(a, run, b))
    requires (forall c | c in b.claims :: c.decision == d) && (forall u | u in b.unknowns :: u.decision == d)
    requires var db := SaveAnalysis(a, run, b);
             Adds(a.claims, db.claims, b.claims, ClaimId) && Adds(a.unknowns, db.unknowns, b.unknowns, UnknownId)
    requires forall k | k in a.claims :: a.claims[k].decision != d
    requires forall k | k in a.unknowns :: a.unknowns[k].decision != d
    ensures forall c :: c in ClaimsOf(SaveAnalysis(a, run, b), d) <==> c in b.claims
    ensures forall u :: u in UnknownsOf(SaveAnalysis(a, run, b), d) <==> u in b.unknowns
  {
    hide Listing;
    var db := SaveAnalysis(a, run, b);
    ListingHolds(db.claims, (c: Claim) => c.decision == d, ClaimId);
    ListingHolds(db.unknowns, (u: Unknown) => u.decision == d, UnknownId);
  }

  /** The whole pipeline on one run: events reviewed, relabelled, saved, projected, judged,
      with no check executed. VERIFIED is sound for every input, and exact as soon as no two
      events collide in their evidence IDs; so is VERIFIED or VERIFIED_WITH_CONDITIONS for
      the weaker partial coverage. */
  lemma ReviewVerdict(w: World, run: string, reader: Reader, made: int, approved: bool, hashes: Hashes, now: int, later: int)
    requires Inv(w, hashes) && run in w.db.runs && w.db.runs[run].status.Ingesting?
    requires w.db.runs[run].decision !in w.db.certificates
    ensures var r := w.db.runs[run];
            var list := Requirements(r.events, reader);
            var t := After(w, Analyse(run, Some(Reviewed(list, r, reader, made))), hashes, now);
            var result := Service.Evaluate(t.db, r.decision, approved, hashes, later).1;
            && result.Ok?
            && (result.value.verdict.Verified? ==> Accepted(list, r, reader))
            && (result.value.verdict.Verified? || result.value.verdict.VerifiedWithConditions? ==>
                  AcceptedWithConditions(list, r, reader))
            && (DistinctEvidence(r, reader) ==>
                  && (result.value.verdict.Verified? <==> Accepted(list, r, reader))
                  && (result.value.verdict.Verified? || result.value.verdict.VerifiedWithConditions? <==>
                        AcceptedWithConditions(list, r, reader)))
  {
    hide *;
    var r := w.db.runs[run];
    var list := Requirements(r.events, reader);
    JudgedRightAfter(w, run, Reviewed(list, r, reader, made), approved, hashes, now, later);
    var b := Relabel.Relabelled(Reviewed(list, r, reader, made), w.drawn, now, r.decision);
    RelabelledStand(list, r, reader, made, w.drawn, now, r.decision);
    VerdictOnClaims(b.claims, b.unknowns, list, r, reader, approved);
  }

  /** Saving and projecting change no verdict. */
  lemma JudgedRightAfter(w: World, run: string, p: Analysis, approved: bool, hashes: Hashes, now: int, later: int)
    requires Inv(w, hashes) && run in w.db.runs && w.db.runs[run].status.Ingesting?
    requires w.db.runs[run].decision !in w.db.certificates
    ensures var d := w.db.runs[run].decision;
            var b := Relabel.Relabelled(p, w.drawn, now, d);
            var result := Service.Evaluate(After(w, Analyse(run, Some(p)), hashes, now).db, d, approved, hashes, later).1;
            result.Ok? && result.value.verdict == Policy.Judge(b.claims, b.unknowns, approved).verdict
  {
    hide *;
    var d := w.db.runs[run].decision;
    var b := Relabel.Relabelled(p, w.drawn, now, d);
    var t := After(w, Analyse(run, Some(p)), hashes, now);
    CallKeepsInv(w, Analyse(run, Some(p)), hashes, now);
    AfterOwnAnalysis(w, run, p, hashes, now);
    ProjectedRightAfter(w, run, p, now, hashes);
    IssuedCertificate(t, d, approved, hashes, later);
    Policy.VerdictIgnoresOrder(ClaimsOf(t.db, d), b.claims, UnknownsOf(t.db, d), b.unknowns, approved);
  }

  lemma AfterOwnAnalysis(w: World, run: string, p: Analysis, hashes: Hashes, now: int)
    requires Inv(w, hashes) && run in w.db.runs && w.db.runs[run].status.Ingesting?
    ensures var d := w.db.runs[run].decision;
            var t := After(w, Analyse(run, Some(p)), hashes, now);
            && t.db == SaveAnalysis(w.db, run, Relabel.Relabelled(p, w.drawn, now, d))
            && t.db.certificates == w.db.certificates && d in t.db.decisions
  {
    hide RunsLinked, Relabel.Relabelled;
    var b := Relabel.Relabelled(p, w.drawn, now, w.db.runs[run].decision);
    AnalysisIsSaved(w, run, p, now);
    SavedForItsDecision(w.db, run, b);
    assert After(w, Analyse(run, Some(p)), hashes, now) == AfterAnalysis(w, run, p, now);
  }

  lemma SavedForItsDecision(a: Db, run: string, b: Analysis)
    requires KeyedById(a) && RunsLinked(a.runs, a.decisions) && run in a.runs
    ensures SaveAnalysis(a, run, b).certificates == a.certificates && a.runs[run].decision in SaveAnalysis(a, run, b).decisions
  {
    SavingKeepsOtherTables(a, run, b);
    SavingMarksTheRun(a, run, b);
  }

  // ---- Evidence IDs of reachable runs

  /** The content hash has one length, and the shortened identity hash does not collide. */
  ghost predicate DigestLike(reader: Reader) {
    && (forall a, b :: |reader.sha(a)| == |reader.sha(b)|)
    && (forall a, b | reader.identity(a) == reader.identity(b) :: a == b)
  }

  lemma SameEvidenceSameEvent(e: Event, f: Event, run: string, reader: Reader)
    requires DigestLike(reader) && Review.EvidenceOf(e, run, reader).id == Review.EvidenceOf(f, run, reader).id
    ensures e.id == f.id
  {
    var a, b := e.id + reader.sha(e.payload), f.id + reader.sha(f.payload);
    assert reader.identity(a) == ("evidence_" + reader.identity(a))[9..];
    assert reader.identity(b) == ("evidence_" + reader.identity(b))[9..];
    assert a == b && |e.id| == |f.id|;
    assert e.id == a[..|e.id|] && f.id == b[..|f.id|];
  }

  /** In every reachable state the exact form of `ReviewVerdict` applies. */
  lemma ReachableEvidenceIsDistinct(worlds: seq<World>, calls: seq<Call>, times: seq<int>, hashes: Hashes, i: nat,
                                    run: string, reader: Reader)
    requires History(worlds, calls, times, hashes) && i < |worlds| && run in worlds[i].db.runs && DigestLike(reader)
    ensures DistinctEvidence(worlds[i].db.runs[run], reader)
  {
    ReachableEventsNumbered(worlds, calls, times, hashes, i);
    var r := worlds[i].db.runs[run];
    forall j, k | 0 <= j < k < |r.events|
      ensures Review.EvidenceOf(r.events[j], r.id, reader).id != Review.EvidenceOf(r.events[k], r.id, reader).id
    {
      if Review.EvidenceOf(r.events[j], r.id, reader).id == Review.EvidenceOf(r.events[k], r.id, reader).id {
        SameEvidenceSameEvent(r.events[j], r.events[k], r.id, reader);
      }
    }
  }

  // ---- Over whole histories

  /** Whatever checks were executed in between, VERIFIED is only given when the analysis
      already found every critical claim supported. */
  lemma VerifiedMeansAnalysedSupported(w: World, d: string, approved: bool, hashes: Hashes, now: int)
    requires Inv(w, hashes) && d in w.db.decisions && d !in w.db.certificates
    requires Service.Evaluate(w.db, d, approved, hashes, now).1.Ok?
    requires Service.Evaluate(w.db, d, approved, hashes, now).1.value.verdict.Verified?
    ensures exists k :: k in AnalysedOf(w, d) && AnalysedOf(w, d)[k].critical
    ensures forall k | k in AnalysedOf(w, d) && AnalysedOf(w, d)[k].critical :: AnalysedOf(w, d)[k].state.Supported?
  {
    hide Evaluate, ClaimsOf;
    IssuedCertificate(w, d, approved, hashes, now);
    Policy.VerifiedMeansAllSupported(ClaimsOf(w.db, d), UnknownsOf(w.db, d), approved);
    ClaimsOfDecision(w.db, d);
    SupportedWasAnalysed(w, d, ClaimsOf(w.db, d), hashes);
  }

  lemma SupportedWasAnalysed(w: World, d: string, claims: seq<Claim>, hashes: Hashes)
    requires Inv(w, hashes) && Policy.AnyCritical(claims)
    requires forall i | 0 <= i < |claims| && claims[i].critical :: claims[i].state.Supported?
    requires forall c :: c in claims <==> c.id in w.db.claims && w.db.claims[c.id] == c && c.decision == d
    ensures exists k :: k in AnalysedOf(w, d) && AnalysedOf(w, d)[k].critical
    ensures forall k | k in AnalysedOf(w, d) && AnalysedOf(w, d)[k].critical :: AnalysedOf(w, d)[k].state.Supported?
  {
    forall k | k in AnalysedOf(w, d) && AnalysedOf(w, d)[k].critical ensures AnalysedOf(w, d)[k].state.Supported? {
      StoredClaim(w, k, hashes);
      assert w.db.claims[k] in claims;
      var i :| 0 <= i < |claims| && claims[i] == w.db.claims[k];
    }
    var i :| 0 <= i < |claims| && claims[i].critical;
    assert claims[i] in claims;
    StoredClaim(w, claims[i].id, hashes);
    assert AnalysedOf(w, d)[claims[i].id].critical;
  }

  /** Checks change neither criticality nor decision, and never make a claim plainly supported. */
  lemma StoredClaim(w: World, k: string, hashes: Hashes)
    requires Inv(w, hashes) && (k in w.db.claims || k in w.analysed)
    ensures k in w.db.claims && k in w.analysed && w.db.claims[k].id == k
    ensures w.db.claims[k].critical == w.analysed[k].critical && w.db.claims[k].decision == w.analysed[k].decision
    ensures w.db.claims[k].state.Supported? ==> w.analysed[k].state.Supported?
  {
    assert ClaimId(w.db.claims[k]) == k;
    assert Replays(w.db.claims[k], w.analysed[k], w.db.verifications, k);
    ReplayKeepsFields(w.db.claims[k], w.analysed[k], w.db.verifications, k);
  }

  lemma ReplayKeepsFields(stored: Claim, original: Claim, checks: map<string, Verification>, k: string)
    requires Replays(stored, original, checks, k)
    ensures stored.critical == original.critical && stored.decision == original.decision
    ensures stored.state.Supported? ==> original.state.Supported?
  {
    if j :| Completes(checks, j, k) {
      assert stored == Checked(original, checks[j]);
    }
  }

  /** Whatever analysis a run got, any certificate issued for it later says VERIFIED only if
      that analysis found some claim critical and all critical claims supported. */
  lemma AnalysedWereSupported(worlds: seq<World>, calls: seq<Call>, times: seq<int>, hashes: Hashes, i: nat, j: nat,
                              run: string, p: Analysis)
    requires History(worlds, calls, times, hashes) && i < j < |worlds|
    requires run in worlds[i].db.runs && worlds[i].db.runs[run].status.Ingesting? && calls[i] == Analyse(run, Some(p))
    requires var d := worlds[i].db.runs[run].decision;
             && d !in worlds[i].db.certificates && d in worlds[j].db.certificates
             && worlds[j].db.certificates[d].verdict.Verified?
    ensures CriticalsSupported(Relabel.Relabelled(p, worlds[i].drawn, times[i], worlds[i].db.runs[run].decision).claims)
  {
    hide Inv, AnalysedOf, Relabel.Relabelled, After, Service.Evaluate, CriticalsSupported;
    var d := worlds[i].db.runs[run].decision;
    ReachableKeepsInv(worlds, calls, times, hashes, i);
    AfterOwnAnalysis(worlds[i], run, p, hashes, times[i]);
    OwnAnalysis(worlds[i], run, p, times[i], hashes);
    var k := CertificateWasIssued(worlds, calls, times, hashes, i + 1, j, d);
    HistoryKeepsAnalysed(worlds, calls, times, hashes, i + 1, k, d);
    ReachableKeepsInv(worlds, calls, times, hashes, k);
    VerifiedMeansAnalysedSupported(worlds[k], d, calls[k].approved, hashes, times[k]);
    SupportedInAnalysis(AnalysedOf(worlds[i + 1], d), Relabel.Relabelled(p, worlds[i].drawn, times[i], d).claims);
  }

  ghost predicate CriticalsSupported(claims: seq<Claim>) {
    Policy.AnyCritical(claims) && forall i | 0 <= i < |claims| && claims[i].critical :: claims[i].state.Supported?
  }

  lemma SupportedInAnalysis(analysed: map<string, Claim>, claims: seq<Claim>)
    requires forall k | k in analysed :: analysed[k] in claims
    requires forall c | c in claims :: c.id in analysed && analysed[c.id] == c
    requires exists k :: k in analysed && analysed[k].critical
    requires forall k | k in analysed && analysed[k].critical :: analysed[k].state.Supported?
    ensures CriticalsSupported(claims)
  {
    var k :| k in analysed && analysed[k].critical;
    var j :| 0 <= j < |claims| && claims[j] == analysed[k];
    forall i | 0 <= i < |claims| && claims[i].critical ensures claims[i].state.Supported? {
      assert claims[i] in claims;
    }
  }

  lemma SupportedIsCovered(claims: seq<Claim>, list: seq<Requirement>, run: Run, reader: Reader)
    requires StandFor(claims, list, run, reader) && CriticalsSupported(claims)
    ensures SomeCritical(list) && CriticalsCovered(list, run, reader)
  {
    hide RequirementState, Covered;
    forall i | 0 <= i < |list| && list[i].critical ensures Covered(list[i], run, reader) {
      StatesMeanCoverage(list[i], run, reader);
    }
    var j :| 0 <= j < |claims| && claims[j].critical;
    assert list[j].critical;
  }

  /** Any certificate issued for a reviewed run, at any later time and after any calls, says
      VERIFIED only if every critical requirement was covered by the reviewed events. */
  lemma VerifiedCertificateIsCovered(worlds: seq<World>, calls: seq<Call>, times: seq<int>, hashes: Hashes, i: nat, j: nat,
                                     run: string, reader: Reader, made: int)
    requires History(worlds, calls, times, hashes) && i < j < |worlds|
    requires run in worlds[i].db.runs && worlds[i].db.runs[run].status.Ingesting?
    requires var r := worlds[i].db.runs[run];
             && calls[i] == Analyse(run, Some(Reviewed(Requirements(r.events, reader), r, reader, made)))
             && r.decision !in worlds[i].db.certificates && r.decision in worlds[j].db.certificates
             && worlds[j].db.certificates[r.decision].verdict.Verified?
    ensures var r := worlds[i].db.runs[run];
            SomeCritical(Requirements(r.events, reader)) && CriticalsCovered(Requirements(r.events, reader), r, reader)
  {
    hide StandFor, CriticalsSupported, SomeCritical, CriticalsCovered, RaisedFor, Relabel.Relabelled, Reviewed, Requirements;
    var r := worlds[i].db.runs[run];
    var list := Requirements(r.events, reader);
    var p := Reviewed(list, r, reader, made);
    AnalysedWereSupported(worlds, calls, times, hashes, i, j, run, p);
    RelabelledStand(list, r, reader, made, worlds[i].drawn, times[i], r.decision);
    SupportedIsCovered(Relabel.Relabelled(p, worlds[i].drawn, times[i], r.decision).claims, list, r, reader);
  }
}
