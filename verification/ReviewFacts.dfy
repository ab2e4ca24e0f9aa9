/** What a code-change review makes of each requirement, in terms of the run's events alone. */
module ReviewFacts {
  import opened Text
  import opened Domain
  import opened Selection
  import opened SupportScore
  import opened Review

  // ---- What is refused

  /** An event of one of the three types whose payload does not decode. */
  ghost predicate Unreadable(e: Event, reader: Reader) {
    || (ToLower(e.kind) == "requirements.declared" && reader.requirements(e.payload).None?)
    || (ToLower(e.kind) == "requirement.assessed" && reader.assessment(e.payload).None?)
    || (ToLower(e.kind) == "change.artifact.observed" && reader.artifact(e.payload).None?)
  }

  ghost predicate DeclaredLast(events: seq<Event>, i: nat) {
    && i < |events| && ToLower(events[i].kind) == "requirements.declared"
    && forall j | i < j < |events| :: ToLower(events[j].kind) != "requirements.declared"
  }

  lemma {:induction false} DeclarationIsLast(events: seq<Event>)
    ensures forall i: nat :: DeclarationAt(events) == Some(i) <==> DeclaredLast(events, i)
  {
    hide ToLower;
    if events != [] {
      var last := |events| - 1;
      DeclarationIsLast(events[..last]);
      forall i: nat ensures DeclarationAt(events) == Some(i) <==> DeclaredLast(events, i) {
        if i < last && !IsDeclaration(events[last]) {
          assert DeclaredLast(events[..last], i) <==> DeclaredLast(events, i);
        }
      }
    }
  }

  /** The requirements are those of the last declaration; an event is refused exactly when its
      payload does not decode. */
  lemma RequirementsAreTheLast(events: seq<Event>, reader: Reader)
    ensures forall i: nat | DeclaredLast(events, i) && reader.requirements(events[i].payload).Some? ::
              Requirements(events, reader) == reader.requirements(events[i].payload).value
    ensures (forall i: nat :: !DeclaredLast(events, i)) ==> Requirements(events, reader) == []
    ensures forall e :: Decodes(e, reader) <==> !Unreadable(e, reader)
    ensures forall r :: Blank(r) <==> TrimSpace(r.id) == "" || TrimSpace(r.text) == ""
  {
    hide ToLower, TrimSpace;
    DeclarationIsLast(events);
  }

  // ---- What is gathered

  ghost function AssessesHere(events: seq<Event>, reader: Reader, id: string): nat -> bool {
    (i: nat) =>
      && i < |events| && ToLower(events[i].kind) == "requirement.assessed"
      && reader.assessment(events[i].payload).Some? && reader.assessment(events[i].payload).value.requirement == id
  }

  lemma {:induction false} ObservationsSelected(events: seq<Event>, n: nat, reader: Reader, id: string)
    requires n <= |events|
    ensures Selects(Observations(events[..n], reader, id), n, AssessesHere(events, reader, id))
  {
    hide ToLower;
    if n > 0 {
      ObservationsSelected(events, n - 1, reader, id);
      var more := OneMoreSelected(Observations(events[..n - 1], reader, id), n - 1, AssessesHere(events, reader, id));
      assert events[..n][..n - 1] == events[..n - 1];
      TypesDiffer(events[n - 1]);
    }
  }

  lemma TypesDiffer(e: Event)
    ensures IsAssessment(e) ==> !IsDeclaration(e)
    ensures IsArtifact(e) ==> !IsDeclaration(e) && !IsAssessment(e)
  {
    var a, b, c := "requirements.declared", "requirement.assessed", "change.artifact.observed";
    assert |a| == 21 && |b| == 20 && |c| == 24;
  }

  ghost predicate Shows(e: Event, reader: Reader, id: string) {
    ToLower(e.kind) == "change.artifact.observed" && reader.artifact(e.payload) == Some(id) && TrimSpace(id) != ""
  }

  /** The last event that shows the artifact. */
  ghost predicate ShownLast(events: seq<Event>, reader: Reader, id: string, i: nat) {
    i < |events| && Shows(events[i], reader, id) && forall j | i < j < |events| :: !Shows(events[j], reader, id)
  }

  lemma {:induction false} ArtifactIsLast(events: seq<Event>, reader: Reader, id: string)
    ensures forall i: nat :: ArtifactAt(events, reader, id) == Some(i) <==> ShownLast(events, reader, id, i)
  {
    hide ToLower, TrimSpace;
    if events != [] {
      var last := |events| - 1;
      ArtifactIsLast(events[..last], reader, id);
      TypesDiffer(events[last]);
      forall i: nat ensures ArtifactAt(events, reader, id) == Some(i) <==> ShownLast(events, reader, id, i) {
        if i < last && !Shows(events[last], reader, id) {
          assert ShownLast(events[..last], reader, id, i) <==> ShownLast(events, reader, id, i);
        }
      }
    }
  }

  /** An event's evidence. */
  ghost predicate Witnesses(e: Evidence, event: Event, run: string, reader: Reader) {
    && e.id == "evidence_" + reader.identity(event.id + reader.sha(event.payload)) && e.run == run
    && e.kind == reader.kind(event.kind, event.payload) && e.source == event.source && e.observedAt == event.occurredAt
    && e.contentHash == reader.sha(event.payload) && e.raw == event.payload
    && e.summary == "Imported " + event.kind + " event from " + event.source
  }

  ghost predicate ShownAs(ref: string, e: Evidence, run: Run, reader: Reader) {
    exists i: nat :: ShownLast(run.events, reader, ref, i) && Witnesses(e, run.events[i], run.id, reader)
  }

  ghost function ShownHere(refs: seq<string>, run: Run, reader: Reader): nat -> bool {
    (p: nat) => p < |refs| && exists i: nat :: ShownLast(run.events, reader, refs[p], i)
  }

  /** The artifacts shown under these references, in their order. */
  ghost predicate CitedFrom(cited: seq<Evidence>, refs: seq<string>, run: Run, reader: Reader) {
    exists at: seq<nat> ::
      && Selects(at, |refs|, ShownHere(refs, run, reader)) && |cited| == |at|
      && forall k | 0 <= k < |at| :: at[k] < |refs| && ShownAs(refs[at[k]], cited[k], run, reader)
  }

  ghost function RefsIn(observations: seq<Assessment>): seq<string> {
    if observations == [] then [] else RefsIn(observations[..|observations| - 1]) + observations[|observations| - 1].refs
  }

  lemma {:induction false} ReferencedOfBoth(a: seq<string>, b: seq<string>, run: Run, reader: Reader)
    ensures Referenced(a + b, run, reader) == Referenced(a, run, reader) + Referenced(b, run, reader)
  {
    hide Referenced, Cites, AsList;
    if b == [] {
      assert a + b == a;
      NothingReferenced(b, run, reader);
      assert b[..0] == b;
    } else {
      var all, front := a + b, b[..|b| - 1];
      ReferencedOfBoth(a, front, run, reader);
      ReferencedLast(all, run, reader);
      ReferencedLast(b, run, reader);
      assert all[..|all| - 1] == a + front && all[|all| - 1] == b[|b| - 1];
    }
  }

  lemma ReferencedLast(refs: seq<string>, run: Run, reader: Reader)
    requires refs != []
    ensures Referenced(refs, run, reader)
            == Referenced(refs[..|refs| - 1], run, reader) + AsList(Cites(refs[|refs| - 1], run, reader))
  {
  }

  lemma {:induction false} AllReferencedByRefs(observations: seq<Assessment>, run: Run, reader: Reader)
    ensures AllReferenced(observations, run, reader) == Referenced(RefsIn(observations), run, reader)
  {
    if observations != [] {
      var last := |observations| - 1;
      AllReferencedByRefs(observations[..last], run, reader);
      ReferencedOfBoth(RefsIn(observations[..last]), observations[last].refs, run, reader);
    }
  }

  lemma CitesTheLast(ref: string, run: Run, reader: Reader)
    ensures Cites(ref, run, reader).Some? <==> exists i: nat :: ShownLast(run.events, reader, ref, i)
    ensures Cites(ref, run, reader).Some? ==> ShownAs(ref, Cites(ref, run, reader).value, run, reader)
  {
    hide ShownLast, ArtifactAt;
    ArtifactIsLast(run.events, reader, ref);
    if ArtifactAt(run.events, reader, ref).Some? {
      assert ShownLast(run.events, reader, ref, ArtifactAt(run.events, reader, ref).value);
    }
  }

  lemma {:induction false} ReferencedSelected(refs: seq<string>, n: nat, run: Run, reader: Reader) returns (at: seq<nat>)
    requires n <= |refs|
    ensures Selects(at, n, ShownHere(refs, run, reader)) && |Referenced(refs[..n], run, reader)| == |at|
    ensures forall k | 0 <= k < |at| :: at[k] < |refs| && ShownAs(refs[at[k]], Referenced(refs[..n], run, reader)[k], run, reader)
  {
    hide ShownAs, ShownHere, Cites, Referenced;
    if n == 0 {
      at := [];
      NothingReferenced(refs, run, reader);
    } else {
      var front := ReferencedSelected(refs, n - 1, run, reader);
      at := OneMoreSelected(front, n - 1, ShownHere(refs, run, reader));
      OneMoreReferenced(refs, n - 1, run, reader);
      CitesHere(refs, n - 1, run, reader);
    }
  }

  lemma NothingReferenced(refs: seq<string>, run: Run, reader: Reader)
    ensures Referenced(refs[..0], run, reader) == [] && Selects([], 0, ShownHere(refs, run, reader))
  {
  }

  lemma OneMoreReferenced(refs: seq<string>, n: nat, run: Run, reader: Reader)
    requires n < |refs|
    ensures Referenced(refs[..n + 1], run, reader)
            == Referenced(refs[..n], run, reader) + AsList(Cites(refs[n], run, reader))
  {
    ReferencedLast(refs[..n + 1], run, reader);
    assert refs[..n + 1][..n] == refs[..n];
  }

  lemma CitesHere(refs: seq<string>, n: nat, run: Run, reader: Reader)
    requires n < |refs|
    ensures Cites(refs[n], run, reader).Some? <==> ShownHere(refs, run, reader)(n)
    ensures Cites(refs[n], run, reader).Some? ==> ShownAs(refs[n], Cites(refs[n], run, reader).value, run, reader)
  {
    hide ShownAs, Cites;
    CitesTheLast(refs[n], run, reader);
  }

  lemma CitedIsFrom(observations: seq<Assessment>, run: Run, reader: Reader)
    ensures CitedFrom(AllReferenced(observations, run, reader), RefsIn(observations), run, reader)
  {
    hide ShownAs, ShownHere, Referenced, AllReferenced;
    var refs := RefsIn(observations);
    AllReferencedByRefs(observations, run, reader);
    var at := ReferencedSelected(refs, |refs|, run, reader);
    assert refs[..|refs|] == refs;
  }

  // ---- Removing repeated evidence

  ghost function FirstHere(items: seq<Evidence>): nat -> bool {
    (i: nat) => i < |items| && forall j | 0 <= j < i :: items[j].id != items[i].id
  }

  /** The first item of each ID, in order. */
  ghost predicate FirstsOf(kept: seq<Evidence>, items: seq<Evidence>) {
    exists at: seq<nat> ::
      && Selects(at, |items|, FirstHere(items)) && |kept| == |at|
      && forall k | 0 <= k < |at| :: at[k] < |items| && kept[k] == items[at[k]]
  }

  lemma {:induction false} DedupeSelected(items: seq<Evidence>, n: nat) returns (at: seq<nat>)
    requires n <= |items|
    ensures Selects(at, n, FirstHere(items)) && |Dedupe(items[..n])| == |at|
    ensures forall k | 0 <= k < |at| :: at[k] < |items| && Dedupe(items[..n])[k] == items[at[k]]
  {
    hide Dedupe, FirstHere;
    if n == 0 {
      at := [];
      NothingKept(items);
    } else {
      var front := DedupeSelected(items, n - 1);
      at := OneMoreSelected(front, n - 1, FirstHere(items));
      OneMoreKept(items, n - 1);
    }
  }

  lemma NothingKept(items: seq<Evidence>)
    ensures Dedupe(items[..0]) == [] && Selects([], 0, FirstHere(items))
  {
  }

  lemma OneMoreKept(items: seq<Evidence>, n: nat)
    requires n < |items|
    ensures Dedupe(items[..n + 1]) == Dedupe(items[..n]) + if FirstHere(items)(n) then [items[n]] else []
    ensures FirstHere(items)(n) ==> n < |items|
  {
    assert items[..n + 1][..n] == items[..n];
    assert HasId(items[..n], items[n].id) <==> !FirstHere(items)(n);
  }

  /** Exactly the first item of each ID survives. */
  lemma DedupeKeepsFirsts(items: seq<Evidence>)
    ensures FirstsOf(Dedupe(items), items)
  {
    hide FirstHere, Dedupe;
    var at := DedupeSelected(items, |items|);
    assert items[..|items|] == items;
  }

  // ---- Judging a requirement

  ghost predicate Fails(a: Assessment) { ToLower(a.status) == "failed" || ToLower(a.status) == "contradicted" }
  ghost predicate Passes(a: Assessment) { ToLower(a.status) == "passed" || ToLower(a.status) == "covered" }
  ghost predicate PassesPartly(a: Assessment) { ToLower(a.status) == "partial" || ToLower(a.status) == "partially_covered" }

  lemma ReportsDiffer(a: Assessment)
    ensures Negative(a) <==> Fails(a)
    ensures Positive(a) <==> Passes(a) && !Fails(a)
    ensures Partial(a) <==> PassesPartly(a) && !Fails(a) && !Passes(a)
    ensures (Fails(a) ==> !Passes(a) && !PassesPartly(a)) && (Passes(a) ==> !PassesPartly(a))
  {
    assert |"failed"| == 6 && |"contradicted"| == 12 && |"passed"| == 6 && |"covered"| == 7 && |"partial"| == 7
           && |"partially_covered"| == 17;
    assert "failed"[0] != "passed"[0] && "covered"[0] != "partial"[0];
  }

  ghost predicate AnyFails(observations: seq<Assessment>) {
    exists k | 0 <= k < |observations| :: Fails(observations[k])
  }

  ghost predicate Shown(artifacts: seq<Evidence>, kind: string) {
    exists e | e in artifacts :: e.kind == kind
  }

  /** The last assessment reports coverage, with confidence and an artifact. */
  ghost predicate Confident(best: Assessment, artifacts: seq<Evidence>) {
    Passes(best) && best.confidence >= 0.80 && artifacts != []
  }

  /** A failing assessment contradicts. Otherwise the last one decides: coverage supports
      when every kind of evidence is shown, in part if some is missing; partial coverage supports
      in part; anything else leaves the requirement pending. */
  ghost predicate StateSays(state: ClaimState, observations: seq<Assessment>, artifacts: seq<Evidence>, kinds: seq<string>) {
    var n := |observations|;
    && (state.Contradicted? <==> AnyFails(observations))
    && (state.Supported? <==> n > 0 && !AnyFails(observations) && Confident(observations[n - 1], artifacts)
                              && forall k | k in kinds :: Shown(artifacts, k))
    && (state.PartiallySupported? <==>
          && n > 0 && !AnyFails(observations)
          && (PassesPartly(observations[n - 1])
              || (Confident(observations[n - 1], artifacts) && exists k | k in kinds :: !Shown(artifacts, k))))
    && (state.Contradicted? || state.Supported? || state.PartiallySupported? || state.VerificationPending?)
  }

  lemma StateIsSaid(observations: seq<Assessment>, artifacts: seq<Evidence>, kinds: seq<string>)
    ensures StateSays(StateOf(observations, artifacts, kinds), observations, artifacts, kinds)
  {
    hide Reported, Fails, Passes, PassesPartly, Missing, HasKind, Shown;
    StateCases(observations, artifacts, kinds);
    NothingMissing(artifacts, kinds);
    forall k | 0 <= k < |observations| ensures Negative(observations[k]) <==> Fails(observations[k])
                                       ensures Positive(observations[k]) <==> Passes(observations[k]) && !Fails(observations[k])
                                       ensures Partial(observations[k]) <==> PassesPartly(observations[k]) && !Fails(observations[k])
                                                                             && !Passes(observations[k])
                                       ensures Passes(observations[k]) ==> !PassesPartly(observations[k]) {
      ReportsDiffer(observations[k]);
    }
    forall k ensures HasKind(artifacts, k) <==> Shown(artifacts, k) {
      KindIsShown(artifacts, k);
    }
  }

  lemma KindIsShown(artifacts: seq<Evidence>, kind: string)
    ensures HasKind(artifacts, kind) <==> Shown(artifacts, kind)
  {
    if HasKind(artifacts, kind) {
      var i :| 0 <= i < |artifacts| && artifacts[i].kind == kind;
      assert artifacts[i] in artifacts;
    }
  }

  ghost function MissingHere(artifacts: seq<Evidence>, kinds: seq<string>): nat -> bool {
    (i: nat) => i < |kinds| && !Shown(artifacts, kinds[i])
  }

  /** The required kinds that are not shown, in order. */
  ghost predicate MissingFrom(missing: seq<string>, artifacts: seq<Evidence>, kinds: seq<string>) {
    exists at: seq<nat> ::
      && Selects(at, |kinds|, MissingHere(artifacts, kinds)) && |missing| == |at|
      && forall k | 0 <= k < |at| :: at[k] < |kinds| && missing[k] == kinds[at[k]]
  }

  lemma {:induction false} MissingSelected(artifacts: seq<Evidence>, kinds: seq<string>, n: nat) returns (at: seq<nat>)
    requires n <= |kinds|
    ensures Selects(at, n, MissingHere(artifacts, kinds)) && |Missing(artifacts, kinds[..n])| == |at|
    ensures forall k | 0 <= k < |at| :: at[k] < |kinds| && Missing(artifacts, kinds[..n])[k] == kinds[at[k]]
  {
    hide Missing, MissingHere;
    if n == 0 {
      at := [];
      NoneMissing(artifacts, kinds);
    } else {
      var front := MissingSelected(artifacts, kinds, n - 1);
      at := OneMoreSelected(front, n - 1, MissingHere(artifacts, kinds));
      OneMoreMissing(artifacts, kinds, n - 1);
    }
  }

  lemma NoneMissing(artifacts: seq<Evidence>, kinds: seq<string>)
    ensures Missing(artifacts, kinds[..0]) == [] && Selects([], 0, MissingHere(artifacts, kinds))
  {
  }

  lemma OneMoreMissing(artifacts: seq<Evidence>, kinds: seq<string>, n: nat)
    requires n < |kinds|
    ensures Missing(artifacts, kinds[..n + 1])
            == Missing(artifacts, kinds[..n]) + if MissingHere(artifacts, kinds)(n) then [kinds[n]] else []
  {
    hide Shown, HasKind;
    assert kinds[..n + 1][..n] == kinds[..n];
    KindIsShown(artifacts, kinds[n]);
  }

  lemma MissingIsFrom(artifacts: seq<Evidence>, kinds: seq<string>)
    ensures MissingFrom(Missing(artifacts, kinds), artifacts, kinds)
  {
    hide Shown, HasKind, Missing;
    var at := MissingSelected(artifacts, kinds, |kinds|);
    assert kinds[..|kinds|] == kinds;
  }

  ghost predicate FirstFails(observations: seq<Assessment>, k: nat) {
    k < |observations| && Fails(observations[k]) && forall j | 0 <= j < k :: !Fails(observations[j])
  }

  /** The first failing assessment explains a contradiction, the last one anything else. */
  ghost predicate Explains(text: string, observations: seq<Assessment>, artifacts: seq<Evidence>, kinds: seq<string>, reader: Reader) {
    && (observations == [] ==> text == "No reviewer assessment is bound to this requirement.")
    && (AnyFails(observations) ==>
          exists k: nat :: FirstFails(observations, k)
            && text == reader.explain(observations[k], "The submitted change contradicts this requirement"))
    && (observations != [] && !AnyFails(observations) ==>
          LastExplains(text, observations[|observations| - 1], artifacts, kinds, reader))
  }

  ghost predicate LastExplains(text: string, best: Assessment, artifacts: seq<Evidence>, kinds: seq<string>, reader: Reader) {
    if Passes(best) then
      if best.confidence < 0.80 || artifacts == [] then
        text == reader.explain(best, "The reviewer reported coverage, but the confidence or evidence-reference gate was not met")
      else if forall k | k in kinds :: Shown(artifacts, k) then text == reader.explain(best, "The reviewer found direct coverage")
      else
        exists missing :: MissingFrom(missing, artifacts, kinds)
          && text == reader.explain(best, "The reviewer reported coverage, but direct evidence is missing for: " + JoinComma(missing))
    else if PassesPartly(best) then text == reader.explain(best, "The reviewer found only partial coverage")
    else text == reader.explain(best, "The reviewer did not provide a decisive supported result")
  }

  lemma {:induction false} FirstNegativeFails(observations: seq<Assessment>) returns (k: nat)
    requires AnyNegative(observations)
    ensures FirstFails(observations, k) && FirstNegative(observations) == observations[k]
    decreases |observations|
  {
    hide Reported, Fails;
    ReportsDiffer(observations[0]);
    if Negative(observations[0]) {
      k := 0;
    } else {
      NegativeIsLater(observations, 0);
      assert observations[0..] == observations;
      var rest := FirstNegativeFails(observations[1..]);
      k := rest + 1;
      forall j | 0 <= j < k ensures !Fails(observations[j]) {
        assert j > 0 ==> observations[1..][j - 1] == observations[j];
      }
    }
  }

  lemma LastIsExplained(best: Assessment, artifacts: seq<Evidence>, kinds: seq<string>, reader: Reader)
    requires !Negative(best)
    ensures LastExplains(Justification([best], artifacts, kinds, reader), best, artifacts, kinds, reader)
  {
    hide Reported, Fails, Passes, PassesPartly, Missing, LastExplains, Justification;
    ReportsDiffer(best);
    if !Positive(best) {
      IndecisiveExplained(best, artifacts, kinds, reader);
    } else if best.confidence < 0.80 || artifacts == [] {
      UngatedExplained(best, artifacts, kinds, reader);
    } else {
      CoverageExplained(best, artifacts, kinds, reader);
    }
  }

  lemma IndecisiveExplained(best: Assessment, artifacts: seq<Evidence>, kinds: seq<string>, reader: Reader)
    requires !Negative(best) && !Positive(best) && !Passes(best) && (Partial(best) <==> PassesPartly(best))
    ensures LastExplains(Justification([best], artifacts, kinds, reader), best, artifacts, kinds, reader)
  {
    hide Reported, Fails, Passes, PassesPartly, Missing, JoinComma;
    assert [best][0] == best;
  }

  lemma UngatedExplained(best: Assessment, artifacts: seq<Evidence>, kinds: seq<string>, reader: Reader)
    requires !Negative(best) && Positive(best) && Passes(best) && (best.confidence < 0.80 || artifacts == [])
    ensures LastExplains(Justification([best], artifacts, kinds, reader), best, artifacts, kinds, reader)
  {
    hide Reported, Fails, Passes, PassesPartly, Missing, JoinComma;
    assert [best][0] == best;
  }

  lemma CoverageExplained(best: Assessment, artifacts: seq<Evidence>, kinds: seq<string>, reader: Reader)
    requires !Negative(best) && Positive(best) && Passes(best) && best.confidence >= 0.80 && artifacts != []
    ensures LastExplains(Justification([best], artifacts, kinds, reader), best, artifacts, kinds, reader)
  {
    hide Reported, Fails, Passes, PassesPartly, Missing, MissingFrom, Shown, JoinComma;
    assert [best][0] == best;
    MissingIsFrom(artifacts, kinds);
    NothingMissingShown(artifacts, kinds);
  }

  lemma NothingMissingShown(artifacts: seq<Evidence>, kinds: seq<string>)
    ensures Missing(artifacts, kinds) == [] <==> forall k | k in kinds :: Shown(artifacts, k)
  {
    hide HasKind, Shown, Missing;
    NothingMissing(artifacts, kinds);
    forall k ensures HasKind(artifacts, k) <==> Shown(artifacts, k) {
      KindIsShown(artifacts, k);
    }
  }

  lemma JustificationExplains(observations: seq<Assessment>, artifacts: seq<Evidence>, kinds: seq<string>, reader: Reader)
    ensures Explains(Justification(observations, artifacts, kinds, reader), observations, artifacts, kinds, reader)
  {
    hide Reported, Fails, LastExplains, Missing, JoinComma, HasKind;
    forall k | 0 <= k < |observations| ensures Negative(observations[k]) <==> Fails(observations[k]) {
      ReportsDiffer(observations[k]);
    }
    if AnyNegative(observations) {
      var k := FirstNegativeFails(observations);
    } else if observations != [] {
      LastDecides(observations, artifacts, kinds, reader);
      LastIsExplained(observations[|observations| - 1], artifacts, kinds, reader);
    }
  }

  // ---- What one requirement adds to the analysis

  /** The requirement's assessments with their evidence, the artifacts they cite, each cited
      artifact once, and all the evidence its claim is bound to. */
  datatype Findings = Findings(
    observations: seq<Assessment>, seen: seq<Evidence>, cited: seq<Evidence>, artifacts: seq<Evidence>, declaration: Evidence,
    bound: seq<Evidence>)

  ghost predicate Observed(f: Findings, id: string, run: Run, reader: Reader) {
    exists at: seq<nat> ::
      && Selects(at, |run.events|, AssessesHere(run.events, reader, id)) && |f.observations| == |at| && |f.seen| == |at|
      && forall k | 0 <= k < |at| ::
           && at[k] < |run.events| && reader.assessment(run.events[at[k]].payload) == Some(f.observations[k])
           && Witnesses(f.seen[k], run.events[at[k]], run.id, reader)
  }

  ghost predicate Found(f: Findings, id: string, run: Run, reader: Reader) {
    && Observed(f, id, run, reader)
    && CitedFrom(f.cited, RefsIn(f.observations), run, reader) && FirstsOf(f.artifacts, f.cited)
    && (forall i: nat | DeclaredLast(run.events, i) :: Witnesses(f.declaration, run.events[i], run.id, reader))
    && FirstsOf(f.bound, [f.declaration] + f.seen + f.artifacts)
  }

  ghost predicate ClaimSays(c: Claim, r: Requirement, i: nat, f: Findings, reader: Reader, now: int) {
    && c.id == "change_requirement_" + Decimal(i + 1) && c.decision == "" && c.createdAt == 0
    && c.statement == r.text && c.scope == "request requirement " + r.id && c.critical == r.critical
    && c.importance == (if r.critical then "critical" else "supporting")
    && c.required == (if r.kinds != [] then r.kinds else ["code_diff", "test_result"])
    && StateSays(c.state, f.observations, f.artifacts, c.required)
    && Explains(c.justification, f.observations, f.artifacts, c.required, reader)
    && Scores(c.support, f.bound, c.state, now)
    && |c.evidence| == |f.bound| && forall k | 0 <= k < |f.bound| :: c.evidence[k] == f.bound[k].id
  }

  /** The declaration is where a claim comes from; other evidence speaks as the state says. */
  ghost predicate RelationSays(x: Relation, e: Evidence, c: Claim, declaration: string) {
    && x.id == "" && x.from == e.id && x.to == c.id && x.rationale == c.justification
    && (e.id == declaration ==> x.kind.DerivedFrom?)
    && (e.id != declaration ==>
          && (c.state.Contradicted? ==> x.kind.Contradicts?)
          && (c.state.PartiallySupported? || c.state.VerificationPending? ==> x.kind.Qualifies?)
          && (c.state.Supported? ==> x.kind.Supports?))
  }

  ghost predicate Adds(a: Analysis, b: Analysis, r: Requirement, c: Claim, f: Findings) {
    var pending := r.critical && c.state.VerificationPending?;
    && b.claims == a.claims + [c] && b.evidence == a.evidence
    && a.relations <= b.relations && |b.relations| == |a.relations| + |f.bound|
    && (forall k | 0 <= k < |f.bound| :: RelationSays(b.relations[|a.relations| + k], f.bound[k], c, f.declaration.id))
    && b.assumptions == a.assumptions
       + (if pending then [Assumption("", "", c.id, "The PR is assumed to cover requirement " + r.id
                                      + ", but direct evidence is missing or below the confidence gate.", true, "open", "blocks_merge")]
          else [])
    && b.unknowns == a.unknowns
       + (if pending then [Unknown("", "", "What direct PR change or test verifies requirement " + r.id + ": " + r.text, true, false)]
          else [])
  }

  lemma EvidenceWitnesses(event: Event, run: string, reader: Reader)
    ensures Witnesses(EvidenceOf(event, run, reader), event, run, reader)
  {
  }

  ghost function FindingsFor(r: Requirement, run: Run, reader: Reader): Findings {
    var at := Observations(run.events, reader, r.id);
    var observations := AssessmentsAt(run.events, reader, at);
    var cited := AllReferenced(observations, run, reader);
    Findings(observations, ObservedEvidence(run, reader, at), cited, Dedupe(cited), Declaration(run, reader), Bound(r, run, reader))
  }

  lemma FindingsAreObserved(r: Requirement, run: Run, reader: Reader)
    ensures Observed(FindingsFor(r, run, reader), r.id, run, reader)
  {
    hide AssessesHere, Witnesses, AllReferenced, Dedupe, Declaration, Bound, Observations, EvidenceOf;
    var at := Observations(run.events, reader, r.id);
    ObservationsSelected(run.events, |run.events|, reader, r.id);
    assert run.events[..|run.events|] == run.events;
    var f := FindingsFor(r, run, reader);
    forall k | 0 <= k < |at|
      ensures at[k] < |run.events| && reader.assessment(run.events[at[k]].payload) == Some(f.observations[k])
              && Witnesses(f.seen[k], run.events[at[k]], run.id, reader)
    {
      assert at[k] in at;
      EvidenceWitnesses(run.events[at[k]], run.id, reader);
    }
  }

  lemma DeclarationWitnesses(run: Run, reader: Reader)
    ensures forall i: nat | DeclaredLast(run.events, i) :: Witnesses(Declaration(run, reader), run.events[i], run.id, reader)
  {
    hide DeclaredLast, Witnesses, EvidenceOf;
    DeclarationIsLast(run.events);
    forall i: nat | DeclaredLast(run.events, i) ensures Witnesses(Declaration(run, reader), run.events[i], run.id, reader) {
      EvidenceWitnesses(run.events[i], run.id, reader);
    }
  }

  lemma FindingsAreFound(r: Requirement, run: Run, reader: Reader)
    ensures Found(FindingsFor(r, run, reader), r.id, run, reader)
  {
    hide Observed, CitedFrom, FirstsOf, DeclaredLast, Witnesses, RefsIn, Dedupe, AllReferenced, Declaration, ObservedEvidence, AssessmentsAt;
    var f := FindingsFor(r, run, reader);
    FindingsAreObserved(r, run, reader);
    CitedIsFrom(f.observations, run, reader);
    DedupeKeepsFirsts(f.cited);
    DeclarationWitnesses(run, reader);
    DedupeKeepsFirsts([f.declaration] + f.seen + f.artifacts);
  }

  lemma ClaimIsSaid(r: Requirement, i: nat, run: Run, reader: Reader, now: int)
    ensures ClaimSays(ClaimFor(r, i, run, reader, now), r, i, FindingsFor(r, run, reader), reader, now)
  {
    hide StateSays, Explains, Scores, StateOf, Justification, Score, Bound, AllReferenced, Dedupe, AssessmentsAt, Observations, Decimal;
    var f := FindingsFor(r, run, reader);
    StateIsSaid(f.observations, f.artifacts, Kinds(r));
    JustificationExplains(f.observations, f.artifacts, Kinds(r), reader);
    ScoredExactly(f.bound, RequirementState(r, run, reader), now);
  }

  lemma BindingSays(e: Evidence, c: Claim, declaration: string)
    ensures RelationSays(BindingOf(e, c, declaration), e, c, declaration)
  {
  }

  lemma ExtendedAdds(a: Analysis, r: Requirement, c: Claim, f: Findings)
    requires c.critical == r.critical
    ensures Adds(a, Extended(a, r, c, f.bound, f.declaration.id), r, c, f)
  {
    hide RelationSays, BindingOf;
    var b := Extended(a, r, c, f.bound, f.declaration.id);
    forall k | 0 <= k < |f.bound| ensures RelationSays(b.relations[|a.relations| + k], f.bound[k], c, f.declaration.id) {
      BindingSays(f.bound[k], c, f.declaration.id);
    }
  }

  /** Requirement by requirement, in order: one claim, one relation per item of bound evidence,
      and for a critical pending one an assumption and an unknown. */
  lemma OneMoreRequirement(list: seq<Requirement>, i: nat, run: Run, reader: Reader, now: int) returns (c: Claim, f: Findings)
    requires i < |list|
    ensures Found(f, list[i].id, run, reader) && ClaimSays(c, list[i], i, f, reader, now)
    ensures Adds(Reviewed(list[..i], run, reader, now), Reviewed(list[..i + 1], run, reader, now), list[i], c, f)
  {
    hide Found, ClaimSays, Folded, Extended, Bound, ClaimFor, AllReferenced, Dedupe, AssessmentsAt, Observations, Sees, Declaration,
         ObservedEvidence, Adds, EvidenceFromEvents;
    c, f := ClaimFor(list[i], i, run, reader, now), FindingsFor(list[i], run, reader);
    FindingsAreFound(list[i], run, reader);
    ClaimIsSaid(list[i], i, run, reader, now);
    CriticalAsAsked(list[i], i, run, reader, now);
    FoldedOneMore(list, i, EvidenceFromEvents(run, reader), ViewsOf(run, reader, now));
    ExtendedAdds(Reviewed(list[..i], run, reader, now), list[i], c, f);
  }

  lemma CriticalAsAsked(r: Requirement, i: nat, run: Run, reader: Reader, now: int)
    ensures ClaimFor(r, i, run, reader, now).critical == r.critical
  {
  }

  /** Without requirements the analysis holds the evidence alone, one item per event. */
  lemma NothingReviewed(run: Run, reader: Reader, now: int)
    ensures var a := Reviewed([], run, reader, now);
            && a.claims == [] && a.relations == [] && a.assumptions == [] && a.unknowns == []
            && |a.evidence| == |run.events|
            && forall k | 0 <= k < |run.events| :: Witnesses(a.evidence[k], run.events[k], run.id, reader)
  {
  }
}
