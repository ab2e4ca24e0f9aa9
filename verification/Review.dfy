/** The code-change review analyzer
    (apps/control-plane/internal/analysis/code_change_review.go). JSON decoding, the
    evidence-kind heuristic, hashing and text formatting are the `Reader`'s parameters. */
module Review {
  import opened Text
  import opened Domain
  import opened SupportScore

  datatype Requirement = Requirement(id: string, text: string, critical: bool, kinds: seq<string>)

  datatype Assessment = Assessment(
    requirement: string, status: string, confidence: real, rationale: string, refs: seq<string>, reviewer: string)

  datatype Reader = Reader(
    requirements: string -> Option<seq<Requirement>>,   // payload of requirements.declared
    assessment: string -> Option<Assessment>,           // payload of requirement.assessed
    artifact: string -> Option<string>,                 // payload of change.artifact.observed: its id
    kind: (string, string) -> string,                   // evidenceKind
    sha: string -> string,
    identity: string -> string,                         // the shortened hash inside an evidence ID
    explain: (Assessment, string) -> string)            // reviewJustification

  const MINIMUM_CONFIDENCE := 0.80

  // ---- Reading the events

  predicate IsDeclaration(e: Event) { ToLower(e.kind) == "requirements.declared" }
  predicate IsAssessment(e: Event) { ToLower(e.kind) == "requirement.assessed" }
  predicate IsArtifact(e: Event) { ToLower(e.kind) == "change.artifact.observed" }

  predicate Decodes(e: Event, reader: Reader) {
    if IsDeclaration(e) then reader.requirements(e.payload).Some?
    else if IsAssessment(e) then reader.assessment(e.payload).Some?
    else if IsArtifact(e) then reader.artifact(e.payload).Some?
    else true
  }

  function EvidenceOf(e: Event, run: string, reader: Reader): Evidence {
    var content := reader.sha(e.payload);
    Evidence("evidence_" + reader.identity(e.id + content), run, reader.kind(e.kind, e.payload), e.source,
             "Imported " + e.kind + " event from " + e.source, content, e.occurredAt, e.payload)
  }

  function EvidenceFromEvents(run: Run, reader: Reader): seq<Evidence> {
    seq(|run.events|, i requires 0 <= i < |run.events| => EvidenceOf(run.events[i], run.id, reader))
  }

  predicate Assesses(e: Event, reader: Reader, id: string) {
    IsAssessment(e) && !IsDeclaration(e) && reader.assessment(e.payload).Some? && reader.assessment(e.payload).value.requirement == id
  }

  /** The positions of the assessments of a requirement, in event order. */
  function Observations(events: seq<Event>, reader: Reader, id: string): (at: seq<nat>)
    ensures forall i | i in at :: i < |events| && Assesses(events[i], reader, id)
  {
    if events == [] then []
    else
      var last := |events| - 1;
      Observations(events[..last], reader, id) + if Assesses(events[last], reader, id) then [last] else []
  }

  predicate Carries(e: Event, reader: Reader, id: string) {
    IsArtifact(e) && !IsDeclaration(e) && !IsAssessment(e) && reader.artifact(e.payload) == Some(id) && TrimSpace(id) != ""
  }

  /** The last observation of an artifact, or None. */
  function ArtifactAt(events: seq<Event>, reader: Reader, id: string): (at: Option<nat>)
    ensures at.Some? ==> at.value < |events| && Carries(events[at.value], reader, id)
  {
    if events == [] then None
    else
      var last := |events| - 1;
      if Carries(events[last], reader, id) then Some(last) else ArtifactAt(events[..last], reader, id)
  }

  function DeclarationAt(events: seq<Event>): (at: Option<nat>)
    ensures at.Some? ==> at.value < |events| && IsDeclaration(events[at.value])
  {
    if events == [] then None
    else
      var last := |events| - 1;
      if IsDeclaration(events[last]) then Some(last) else DeclarationAt(events[..last])
  }

  function Requirements(events: seq<Event>, reader: Reader): seq<Requirement> {
    match DeclarationAt(events)
    case None => []
    case Some(i) =>
      match reader.requirements(events[i].payload)
      case None => []
      case Some(list) => list
  }

  /** What the first loop gathers: positions stand for the decoded payload and evidence. */
  datatype Gathered = Gathered(declaration: Option<nat>, assessments: map<string, seq<nat>>, artifacts: map<string, nat>) {
    function AssessedAt(id: string): seq<nat> { if id in assessments then assessments[id] else [] }
    function SeenAt(id: string): Option<nat> { if id in artifacts then Some(artifacts[id]) else None }
  }

  ghost predicate GathersFrom(g: Gathered, events: seq<Event>, reader: Reader) {
    && g.declaration == DeclarationAt(events)
    && (forall id :: g.AssessedAt(id) == Observations(events, reader, id))
    && (forall id :: g.SeenAt(id) == ArtifactAt(events, reader, id))
  }

  /** None is a decoding error. */
  method Gather(run: Run, reader: Reader) returns (gathered: Option<Gathered>)
    ensures gathered.None? <==> exists i | 0 <= i < |run.events| :: !Decodes(run.events[i], reader)
    ensures gathered.Some? ==> GathersFrom(gathered.value, run.events, reader)
  {
    hide Decodes, Extends;
    var g := Gathered(None, map[], map[]);
    for index := 0 to |run.events|
      invariant GathersFrom(g, run.events[..index], reader)
      invariant forall i | 0 <= i < index :: Decodes(run.events[i], reader)
    {
      assert run.events[..index + 1] == run.events[..index] + [run.events[index]];
      var next := GatherEvent(run.events[index], index, g, reader);
      if next.None? {
        return None;
      }
      GatherOneMore(g, run.events[..index], run.events[index], next.value, reader);
      g := next.value;
    }
    assert run.events[..|run.events|] == run.events;
    gathered := Some(g);
  }

  /** One round of the loop: the `switch` on the event type. */
  method GatherEvent(event: Event, index: nat, g: Gathered, reader: Reader) returns (next: Option<Gathered>)
    ensures next.None? <==> !Decodes(event, reader)
    ensures next.Some? ==> Extends(g, event, index, next.value, reader)
  {
    if IsDeclaration(event) {
      if reader.requirements(event.payload).None? {
        return None;
      }
      return Some(g.(declaration := Some(index)));
    }
    if IsAssessment(event) {
      if reader.assessment(event.payload).None? {
        return None;
      }
      var id := reader.assessment(event.payload).value.requirement;
      return Some(g.(assessments := g.assessments[id := g.AssessedAt(id) + [index]]));
    }
    if IsArtifact(event) {
      if reader.artifact(event.payload).None? {
        return None;
      }
      var id := reader.artifact(event.payload).value;
      if TrimSpace(id) != "" {
        return Some(g.(artifacts := g.artifacts[id := index]));
      }
    }
    next := Some(g);
  }

  ghost predicate Extends(g: Gathered, e: Event, index: nat, h: Gathered, reader: Reader) {
    && h.declaration == (if IsDeclaration(e) then Some(index) else g.declaration)
    && (forall id :: h.AssessedAt(id) == g.AssessedAt(id) + if Assesses(e, reader, id) then [index] else [])
    && (forall id :: h.SeenAt(id) == if Carries(e, reader, id) then Some(index) else g.SeenAt(id))
  }

  lemma OneMoreEvent(events: seq<Event>, e: Event, reader: Reader, id: string)
    ensures Observations(events + [e], reader, id)
            == Observations(events, reader, id) + if Assesses(e, reader, id) then [|events|] else []
    ensures ArtifactAt(events + [e], reader, id)
            == if Carries(e, reader, id) then Some(|events|) else ArtifactAt(events, reader, id)
    ensures DeclarationAt(events + [e]) == if IsDeclaration(e) then Some(|events|) else DeclarationAt(events)
  {
    var more := events + [e];
    assert more[..|events|] == events && more[|events|] == e;
  }

  lemma GatherOneMore(g: Gathered, events: seq<Event>, e: Event, h: Gathered, reader: Reader)
    requires GathersFrom(g, events, reader) && Extends(g, e, |events|, h, reader)
    ensures GathersFrom(h, events + [e], reader)
  {
    forall id ensures h.AssessedAt(id) == Observations(events + [e], reader, id)
              ensures h.SeenAt(id) == ArtifactAt(events + [e], reader, id) {
      OneMoreEvent(events, e, reader, id);
    }
    OneMoreEvent(events, e, reader, "");
  }

  // ---- Judging one requirement

  function Kinds(r: Requirement): seq<string> {
    if r.kinds == [] then ["code_diff", "test_result"] else r.kinds
  }

  function AssessmentsAt(events: seq<Event>, reader: Reader, at: seq<nat>): seq<Assessment>
    requires forall i | i in at :: i < |events| && reader.assessment(events[i].payload).Some?
  {
    seq(|at|, k requires 0 <= k < |at| => assert at[k] in at; reader.assessment(events[at[k]].payload).value)
  }

  /** The evidence of the artifact a reference names, or None when none was observed. */
  function Cites(ref: string, run: Run, reader: Reader): Option<Evidence> {
    match ArtifactAt(run.events, reader, ref)
    case None => None
    case Some(i) => Some(EvidenceOf(run.events[i], run.id, reader))
  }

  /** The evidence of the artifacts one assessment refers to, in reference order. */
  function Referenced(refs: seq<string>, run: Run, reader: Reader): seq<Evidence> {
    if refs == [] then []
    else
      var last := Cites(refs[|refs| - 1], run, reader);
      Referenced(refs[..|refs| - 1], run, reader) + if last.Some? then [last.value] else []
  }

  function AllReferenced(observations: seq<Assessment>, run: Run, reader: Reader): seq<Evidence> {
    if observations == [] then []
    else
      AllReferenced(observations[..|observations| - 1], run, reader)
      + Referenced(observations[|observations| - 1].refs, run, reader)
  }

  datatype Report = Failing | Passing | Partly | Undecided

  function Reported(status: string): Report {
    var lower := ToLower(status);
    if lower == "failed" || lower == "contradicted" then Failing
    else if lower == "passed" || lower == "covered" then Passing
    else if lower == "partial" || lower == "partially_covered" then Partly
    else Undecided
  }

  predicate Negative(a: Assessment) { Reported(a.status).Failing? }
  predicate Positive(a: Assessment) { Reported(a.status).Passing? }
  predicate Partial(a: Assessment) { Reported(a.status).Partly? }

  predicate AnyNegative(observations: seq<Assessment>) {
    exists i | 0 <= i < |observations| :: Negative(observations[i])
  }

  predicate HasKind(items: seq<Evidence>, kind: string) {
    exists i | 0 <= i < |items| :: items[i].kind == kind
  }

  method MissingEvidenceTypes(artifacts: seq<Evidence>, required: seq<string>) returns (missing: seq<string>)
    ensures missing == [] <==> forall k | k in required :: HasKind(artifacts, k)
    ensures missing == Missing(artifacts, required)
  {
    var present: set<string> := {};
    for i := 0 to |artifacts|
      invariant forall k :: k in present <==> HasKind(artifacts[..i], k)
    {
      HasKindOfOneMore(artifacts[..i], artifacts[i]);
      assert artifacts[..i + 1] == artifacts[..i] + [artifacts[i]];
      present := present + {artifacts[i].kind};
    }
    assert artifacts[..|artifacts|] == artifacts;
    missing := [];
    for i := 0 to |required|
      invariant missing == Missing(artifacts, required[..i])
    {
      assert required[..i + 1][..i] == required[..i];
      if required[i] !in present {
        missing := missing + [required[i]];
      }
    }
    assert required[..|required|] == required;
    NothingMissing(artifacts, required);
  }

  lemma HasKindOfOneMore(items: seq<Evidence>, item: Evidence)
    ensures forall k :: HasKind(items + [item], k) <==> HasKind(items, k) || item.kind == k
  {
    var more := items + [item];
    forall k ensures HasKind(more, k) <==> HasKind(items, k) || item.kind == k {
      if HasKind(items, k) {
        var i :| 0 <= i < |items| && items[i].kind == k;
        assert more[i].kind == k;
      }
      assert more[|items|].kind == item.kind;
    }
  }

  function Missing(artifacts: seq<Evidence>, required: seq<string>): seq<string> {
    if required == [] then []
    else
      var last := required[|required| - 1];
      Missing(artifacts, required[..|required| - 1]) + if HasKind(artifacts, last) then [] else [last]
  }

  lemma {:induction false} NothingMissing(artifacts: seq<Evidence>, required: seq<string>)
    ensures Missing(artifacts, required) == [] <==> forall k | k in required :: HasKind(artifacts, k)
  {
    if required != [] {
      var front, last := required[..|required| - 1], required[|required| - 1];
      NothingMissing(artifacts, front);
      assert required == front + [last];
    }
  }

  /** The assessment a contradiction is explained by: the first negative one. */
  function FirstNegative(observations: seq<Assessment>): Assessment
    requires AnyNegative(observations)
    decreases |observations|
  {
    if Negative(observations[0]) then observations[0]
    else
      assert AnyNegative(observations[1..]) by {
        var i :| 0 <= i < |observations| && Negative(observations[i]);
        assert observations[1..][i - 1] == observations[i];
      }
      FirstNegative(observations[1..])
  }

  function StateOf(observations: seq<Assessment>, artifacts: seq<Evidence>, kinds: seq<string>): ClaimState {
    if observations == [] then VerificationPending
    else if AnyNegative(observations) then ClaimState.Contradicted
    else
      var best := observations[|observations| - 1];
      if Positive(best) then
        if best.confidence < MINIMUM_CONFIDENCE || artifacts == [] then VerificationPending
        else if Missing(artifacts, kinds) != [] then PartiallySupported
        else Supported
      else if Partial(best) then PartiallySupported
      else VerificationPending
  }

  function Justification(observations: seq<Assessment>, artifacts: seq<Evidence>, kinds: seq<string>, reader: Reader): string {
    if observations == [] then "No reviewer assessment is bound to this requirement."
    else if AnyNegative(observations) then
      reader.explain(FirstNegative(observations), "The submitted change contradicts this requirement")
    else
      var best := observations[|observations| - 1];
      if Positive(best) then
        if best.confidence < MINIMUM_CONFIDENCE || artifacts == [] then
          reader.explain(best, "The reviewer reported coverage, but the confidence or evidence-reference gate was not met")
        else if Missing(artifacts, kinds) != [] then
          reader.explain(best, "The reviewer reported coverage, but direct evidence is missing for: "
                               + JoinComma(Missing(artifacts, kinds)))
        else reader.explain(best, "The reviewer found direct coverage")
      else if Partial(best) then reader.explain(best, "The reviewer found only partial coverage")
      else reader.explain(best, "The reviewer did not provide a decisive supported result")
  }

  method ReviewState(observations: seq<Assessment>, artifacts: seq<Evidence>, kinds: seq<string>, reader: Reader)
      returns (state: ClaimState, justification: string)
    ensures state == StateOf(observations, artifacts, kinds)
    ensures justification == Justification(observations, artifacts, kinds, reader)
  {
    if |observations| == 0 {
      return VerificationPending, "No reviewer assessment is bound to this requirement.";
    }
    var best := observations[|observations| - 1];
    var negative := FindNegative(observations);
    if negative.Some? {
      return ClaimState.Contradicted, reader.explain(negative.value, "The submitted change contradicts this requirement");
    }
    LastDecides(observations, artifacts, kinds, reader);
    state, justification := BestState(best, artifacts, kinds, reader);
  }

  lemma LastDecides(observations: seq<Assessment>, artifacts: seq<Evidence>, kinds: seq<string>, reader: Reader)
    requires observations != [] && !AnyNegative(observations)
    ensures var best := observations[|observations| - 1];
            && !Negative(best)
            && StateOf(observations, artifacts, kinds) == StateOf([best], artifacts, kinds)
            && Justification(observations, artifacts, kinds, reader) == Justification([best], artifacts, kinds, reader)
  {
  }

  /** The loop over all assessments. */
  method FindNegative(observations: seq<Assessment>) returns (found: Option<Assessment>)
    ensures found == if AnyNegative(observations) then Some(FirstNegative(observations)) else None
  {
    hide Reported;
    for i := 0 to |observations|
      invariant !AnyNegative(observations[..i])
      invariant AnyNegative(observations) ==>
                  AnyNegative(observations[i..]) && FirstNegative(observations[i..]) == FirstNegative(observations)
    {
      if Reported(observations[i].status).Failing? {
        assert observations[i..][0] == observations[i];
        return Some(observations[i]);
      }
      NegativeIsLater(observations, i);
    }
    found := None;
  }

  /** The `switch` on the last assessment. */
  method BestState(best: Assessment, artifacts: seq<Evidence>, kinds: seq<string>, reader: Reader)
      returns (state: ClaimState, justification: string)
    requires !Negative(best)
    ensures state == StateOf([best], artifacts, kinds)
    ensures justification == Justification([best], artifacts, kinds, reader)
  {
    hide JoinComma, HasKind;
    match Reported(best.status)
    case Passing =>
      if best.confidence < MINIMUM_CONFIDENCE || |artifacts| == 0 {
        return VerificationPending,
               reader.explain(best, "The reviewer reported coverage, but the confidence or evidence-reference gate was not met");
      }
      var missing := MissingEvidenceTypes(artifacts, kinds);
      if |missing| > 0 {
        return PartiallySupported,
               reader.explain(best, "The reviewer reported coverage, but direct evidence is missing for: " + JoinComma(missing));
      }
      return Supported, reader.explain(best, "The reviewer found direct coverage");
    case Partly =>
      return PartiallySupported, reader.explain(best, "The reviewer found only partial coverage");
    case _ =>
      return VerificationPending, reader.explain(best, "The reviewer did not provide a decisive supported result");
  }

  lemma NegativeIsLater(observations: seq<Assessment>, i: nat)
    requires i < |observations| && !Negative(observations[i])
    ensures AnyNegative(observations[i..]) ==>
              AnyNegative(observations[i + 1..]) && FirstNegative(observations[i + 1..]) == FirstNegative(observations[i..])
  {
    assert observations[i..][1..] == observations[i + 1..];
    if AnyNegative(observations[i..]) {
      var k :| 0 <= k < |observations[i..]| && Negative(observations[i..][k]);
      assert observations[i + 1..][k - 1] == observations[i..][k];
    }
  }

  // ---- What the states mean, in terms of the events

  /** The requirement's assessments: some, none negative, the last positive and confident,
      and every required kind carried by an observed artifact one of them refers to. */
  ghost predicate Covered(r: Requirement, run: Run, reader: Reader) {
    var at := Observations(run.events, reader, r.id);
    var observations := AssessmentsAt(run.events, reader, at);
    && observations != [] && !AnyNegative(observations)
    && Positive(observations[|observations| - 1]) && observations[|observations| - 1].confidence >= MINIMUM_CONFIDENCE
    && forall k | k in Kinds(r) :: CarriedBy(observations, run, reader, k)
  }

  /** Some assessment refers to an observed artifact whose evidence is of this kind. */
  ghost predicate CarriedBy(observations: seq<Assessment>, run: Run, reader: Reader, kind: string) {
    exists i | 0 <= i < |observations| :: CitesKind(observations[i].refs, run, reader, kind)
  }

  ghost predicate CitesKind(refs: seq<string>, run: Run, reader: Reader, kind: string) {
    exists ref | ref in refs :: Cites(ref, run, reader).Some? && Cites(ref, run, reader).value.kind == kind
  }

  /** Reported complete with confidence and a referenced artifact, or reported partial; and
      never negative. */
  ghost predicate PartlyCovered(r: Requirement, run: Run, reader: Reader) {
    var at := Observations(run.events, reader, r.id);
    var observations := AssessmentsAt(run.events, reader, at);
    && observations != [] && !AnyNegative(observations)
    && (var best := observations[|observations| - 1];
        || Partial(best)
        || (Positive(best) && best.confidence >= MINIMUM_CONFIDENCE
            && exists k :: CarriedBy(observations, run, reader, k)))
  }

  ghost predicate Refuted(r: Requirement, run: Run, reader: Reader) {
    AnyNegative(AssessmentsAt(run.events, reader, Observations(run.events, reader, r.id)))
  }

  lemma {:induction false} ReferencedHasKind(refs: seq<string>, run: Run, reader: Reader, kind: string)
    ensures HasKind(Referenced(refs, run, reader), kind) <==> CitesKind(refs, run, reader, kind)
  {
    if refs != [] {
      var front, last := refs[..|refs| - 1], refs[|refs| - 1];
      ReferencedHasKind(front, run, reader, kind);
      CitedAlone(Cites(last, run, reader), kind);
      HasKindOfBoth(Referenced(front, run, reader), AsList(Cites(last, run, reader)), kind);
      assert forall ref :: ref in refs <==> ref in front || ref == last by { assert refs == front + [last]; }
    }
  }

  function AsList(item: Option<Evidence>): seq<Evidence> {
    if item.Some? then [item.value] else []
  }

  lemma CitedAlone(item: Option<Evidence>, kind: string)
    ensures HasKind(AsList(item), kind) <==> item.Some? && item.value.kind == kind
  {
    if item.Some? {
      assert AsList(item)[0] == item.value;
    }
  }

  lemma CarriedByOneMore(observations: seq<Assessment>, run: Run, reader: Reader, kind: string)
    requires observations != []
    ensures CarriedBy(observations, run, reader, kind)
            <==> CarriedBy(observations[..|observations| - 1], run, reader, kind)
                 || CitesKind(observations[|observations| - 1].refs, run, reader, kind)
  {
    hide CitesKind;
    var front := observations[..|observations| - 1];
    if i :| 0 <= i < |front| && CitesKind(front[i].refs, run, reader, kind) {
      assert front[i] == observations[i];
    }
    if i :| 0 <= i < |observations| && CitesKind(observations[i].refs, run, reader, kind) {
      assert i < |front| ==> front[i] == observations[i];
    }
  }

  lemma {:induction false} AllReferencedHasKind(observations: seq<Assessment>, run: Run, reader: Reader, kind: string)
    ensures HasKind(AllReferenced(observations, run, reader), kind) <==> CarriedBy(observations, run, reader, kind)
  {
    hide Referenced, CitesKind;
    if observations != [] {
      var front, last := observations[..|observations| - 1], observations[|observations| - 1];
      AllReferencedHasKind(front, run, reader, kind);
      ReferencedHasKind(last.refs, run, reader, kind);
      HasKindOfBoth(AllReferenced(front, run, reader), Referenced(last.refs, run, reader), kind);
      CarriedByOneMore(observations, run, reader, kind);
    }
  }

  lemma HasKindOfBoth(a: seq<Evidence>, b: seq<Evidence>, kind: string)
    ensures HasKind(a + b, kind) <==> HasKind(a, kind) || HasKind(b, kind)
  {
    if HasKind(a, kind) {
      var i :| 0 <= i < |a| && a[i].kind == kind;
      assert (a + b)[i].kind == kind;
    }
    if HasKind(b, kind) {
      var i :| 0 <= i < |b| && b[i].kind == kind;
      assert (a + b)[|a| + i].kind == kind;
    }
  }

  lemma DedupeKeepsKinds(items: seq<Evidence>, kind: string)
    requires forall i, j | 0 <= i < |items| && 0 <= j < |items| && items[i].id == items[j].id :: items[i].kind == items[j].kind
    ensures HasKind(Dedupe(items), kind) <==> HasKind(items, kind)
  {
    DedupeKeepsEachIdOnce(items);
    if HasKind(items, kind) {
      var i :| 0 <= i < |items| && items[i].kind == kind;
      assert HasId(items, items[i].id) && HasId(Dedupe(items), items[i].id);
      var j :| 0 <= j < |Dedupe(items)| && Dedupe(items)[j].id == items[i].id;
      assert Dedupe(items)[j] in items;
    }
    if HasKind(Dedupe(items), kind) {
      var j :| 0 <= j < |Dedupe(items)| && Dedupe(items)[j].kind == kind;
      assert Dedupe(items)[j] in items;
    }
  }

  function ArtifactsOf(observations: seq<Assessment>, run: Run, reader: Reader): seq<Evidence> {
    Dedupe(AllReferenced(observations, run, reader))
  }

  /** The bound artifacts carry only cited kinds and, without colliding evidence IDs, all of them. */
  lemma ArtifactsCarry(observations: seq<Assessment>, run: Run, reader: Reader, k: string)
    ensures HasKind(ArtifactsOf(observations, run, reader), k) ==> CarriedBy(observations, run, reader, k)
    ensures DistinctEvidence(run, reader) ==>
              (HasKind(ArtifactsOf(observations, run, reader), k) <==> CarriedBy(observations, run, reader, k))
  {
    AllReferencedHasKind(observations, run, reader, k);
    DedupedKinds(AllReferenced(observations, run, reader), k);
    if DistinctEvidence(run, reader) {
      CitedEvidenceAgrees(observations, run, reader);
      DedupeKeepsKinds(AllReferenced(observations, run, reader), k);
    }
  }

  /** A supported requirement is covered; without colliding evidence IDs the converse
      holds too. A contradicted one is refuted, a partially supported one partly covered. */
  lemma StatesMeanCoverage(r: Requirement, run: Run, reader: Reader)
    ensures var state := RequirementState(r, run, reader);
            && (state.Supported? ==> Covered(r, run, reader))
            && (state.Contradicted? <==> Refuted(r, run, reader))
            && (state.PartiallySupported? ==> PartlyCovered(r, run, reader))
            && (DistinctEvidence(run, reader) ==>
                  && (state.Supported? <==> Covered(r, run, reader))
                  && (state.PartiallySupported? <==> PartlyCovered(r, run, reader) && !Covered(r, run, reader)))
            && (state.Supported? || state.PartiallySupported? || state.Contradicted? || state.VerificationPending?)
  {
    var observations := AssessmentsAt(run.events, reader, Observations(run.events, reader, r.id));
    var artifacts := ArtifactsOf(observations, run, reader);
    NothingMissing(artifacts, Kinds(r));
    forall k ensures HasKind(artifacts, k) ==> CarriedBy(observations, run, reader, k)
             ensures DistinctEvidence(run, reader) ==> (HasKind(artifacts, k) <==> CarriedBy(observations, run, reader, k)) {
      ArtifactsCarry(observations, run, reader, k);
    }
    SomeKindRequired(r);
    if artifacts != [] {
      assert HasKind(artifacts, artifacts[0].kind);
    }
    StateCases(observations, artifacts, Kinds(r));
  }

  lemma CoveredIsPartlyCovered(r: Requirement, run: Run, reader: Reader)
    requires Covered(r, run, reader)
    ensures PartlyCovered(r, run, reader)
  {
    SomeKindRequired(r);
    hide AssessmentsAt, Observations, CarriedBy, Kinds, AnyNegative, Positive, Partial;
    var observations := AssessmentsAt(run.events, reader, Observations(run.events, reader, r.id));
    assert CarriedBy(observations, run, reader, Kinds(r)[0]);
  }

  lemma SomeKindRequired(r: Requirement)
    ensures Kinds(r) != [] && Kinds(r)[0] in Kinds(r)
  {
  }

  lemma StateCases(observations: seq<Assessment>, artifacts: seq<Evidence>, kinds: seq<string>)
    ensures var state := StateOf(observations, artifacts, kinds);
            && (state.Supported? <==>
                  && observations != [] && !AnyNegative(observations)
                  && Positive(observations[|observations| - 1])
                  && observations[|observations| - 1].confidence >= MINIMUM_CONFIDENCE
                  && artifacts != [] && Missing(artifacts, kinds) == [])
            && (state.Contradicted? <==> AnyNegative(observations))
            && (state.PartiallySupported? <==>
                  && observations != [] && !AnyNegative(observations)
                  && (|| Partial(observations[|observations| - 1])
                      || (Positive(observations[|observations| - 1])
                          && observations[|observations| - 1].confidence >= MINIMUM_CONFIDENCE && artifacts != []
                          && Missing(artifacts, kinds) != [])))
            && (state.Supported? || state.PartiallySupported? || state.Contradicted? || state.VerificationPending?)
  {
  }

  lemma DedupedKinds(items: seq<Evidence>, kind: string)
    ensures HasKind(Dedupe(items), kind) ==> HasKind(items, kind)
  {
    DedupeKeepsEachIdOnce(items);
    if HasKind(Dedupe(items), kind) {
      var j :| 0 <= j < |Dedupe(items)| && Dedupe(items)[j].kind == kind;
      assert Dedupe(items)[j] in items;
    }
  }

  function RequirementState(r: Requirement, run: Run, reader: Reader): ClaimState {
    var observations := AssessmentsAt(run.events, reader, Observations(run.events, reader, r.id));
    StateOf(observations, Dedupe(AllReferenced(observations, run, reader)), Kinds(r))
  }

  /** Different events have different evidence IDs. */
  ghost predicate DistinctEvidence(run: Run, reader: Reader) {
    forall i, j | 0 <= i < j < |run.events| ::
      EvidenceOf(run.events[i], run.id, reader).id != EvidenceOf(run.events[j], run.id, reader).id
  }

  lemma CitedEvidenceAgrees(observations: seq<Assessment>, run: Run, reader: Reader)
    requires DistinctEvidence(run, reader)
    ensures var cited := AllReferenced(observations, run, reader);
            forall i, j | 0 <= i < |cited| && 0 <= j < |cited| && cited[i].id == cited[j].id :: cited[i].kind == cited[j].kind
  {
    var cited := AllReferenced(observations, run, reader);
    forall i | 0 <= i < |cited| ensures FromEvent(cited[i], run, reader) {
      AllReferencedFromEvents(observations, run, reader);
    }
  }

  ghost predicate FromEvent(e: Evidence, run: Run, reader: Reader) {
    exists i | 0 <= i < |run.events| :: EvidenceOf(run.events[i], run.id, reader) == e
  }

  lemma {:induction false} ReferencedFromEvents(refs: seq<string>, run: Run, reader: Reader)
    ensures forall e | e in Referenced(refs, run, reader) :: FromEvent(e, run, reader)
  {
    if refs != [] {
      ReferencedFromEvents(refs[..|refs| - 1], run, reader);
    }
  }

  lemma {:induction false} AllReferencedFromEvents(observations: seq<Assessment>, run: Run, reader: Reader)
    ensures forall e | e in AllReferenced(observations, run, reader) :: FromEvent(e, run, reader)
  {
    if observations != [] {
      AllReferencedFromEvents(observations[..|observations| - 1], run, reader);
      ReferencedFromEvents(observations[|observations| - 1].refs, run, reader);
    }
  }

  // ---- The whole analysis

  function ClaimName(i: nat): string { "change_requirement_" + Decimal(i + 1) }

  const NO_EVIDENCE := Evidence("", "", "", "", "", "", 0, "")

  function Declaration(run: Run, reader: Reader): Evidence {
    match DeclarationAt(run.events)
    case None => NO_EVIDENCE
    case Some(i) => EvidenceOf(run.events[i], run.id, reader)
  }

  function ObservedEvidence(run: Run, reader: Reader, at: seq<nat>): seq<Evidence>
    requires forall i | i in at :: i < |run.events|
  {
    seq(|at|, k requires 0 <= k < |at| => assert at[k] in at; EvidenceOf(run.events[at[k]], run.id, reader))
  }

  /** The evidence a requirement's claim is bound to. */
  function Bound(r: Requirement, run: Run, reader: Reader): seq<Evidence> {
    var at := Observations(run.events, reader, r.id);
    Dedupe([Declaration(run, reader)] + ObservedEvidence(run, reader, at)
           + Dedupe(AllReferenced(AssessmentsAt(run.events, reader, at), run, reader)))
  }

  function ClaimFor(r: Requirement, i: nat, run: Run, reader: Reader, now: int): Claim {
    var observations := AssessmentsAt(run.events, reader, Observations(run.events, reader, r.id));
    var artifacts := Dedupe(AllReferenced(observations, run, reader));
    var bound := Bound(r, run, reader);
    var state := RequirementState(r, run, reader);
    Claim(ClaimName(i), "", r.text, "request requirement " + r.id, r.critical, if r.critical then "critical" else "supporting",
          Kinds(r), state, Justification(observations, artifacts, Kinds(r), reader), Score(bound, state, now),
          seq(|bound|, k requires 0 <= k < |bound| => bound[k].id), 0)
  }

  function Binding(state: ClaimState, own: bool): RelationType {
    if own then DerivedFrom
    else if state.Contradicted? then Contradicts
    else if state.PartiallySupported? || state.VerificationPending? then Qualifies
    else Supports
  }

  function BindingOf(item: Evidence, claim: Claim, declaration: string): Relation {
    Relation("", item.id, claim.id, Binding(claim.state, item.id == declaration), claim.justification)
  }

  function Bindings(bound: seq<Evidence>, claim: Claim, declaration: string): seq<Relation> {
    seq(|bound|, k requires 0 <= k < |bound| => BindingOf(bound[k], claim, declaration))
  }

  predicate Blank(r: Requirement) { TrimSpace(r.id) == "" || TrimSpace(r.text) == "" }

  predicate Open(claim: Claim) {
    claim.critical && claim.state.VerificationPending?
  }

  function OpenAssumption(r: Requirement, claim: Claim): Assumption {
    Assumption("", "", claim.id, "The PR is assumed to cover requirement " + r.id
                                 + ", but direct evidence is missing or below the confidence gate.", true, "open", "blocks_merge")
  }

  function OpenUnknown(r: Requirement): (u: Unknown)
    ensures u.critical && !u.resolved
  {
    Unknown("", "", "What direct PR change or test verifies requirement " + r.id + ": " + r.text, true, false)
  }

  /** What one more requirement adds. */
  function Extended(a: Analysis, r: Requirement, claim: Claim, bound: seq<Evidence>, declaration: string): (b: Analysis)
    ensures b.claims == a.claims + [claim] && b.evidence == a.evidence
  {
    a.(claims := a.claims + [claim],
       relations := a.relations + Bindings(bound, claim, declaration),
       assumptions := a.assumptions + if Open(claim) then [OpenAssumption(r, claim)] else [],
       unknowns := a.unknowns + if Open(claim) then [OpenUnknown(r)] else [])
  }

  /** How the claim and the evidence of each requirement are found, and which are refused. */
  datatype Views = Views(
    claim: (Requirement, nat) -> Claim, bound: Requirement -> seq<Evidence>, blank: Requirement -> bool, declaration: string)

  function ViewsOf(run: Run, reader: Reader, now: int): Views {
    Views((r: Requirement, i: nat) => ClaimFor(r, i, run, reader, now), r => Bound(r, run, reader), Blank,
          Declaration(run, reader).id)
  }

  /** The analysis of the requirements, one after another. */
  function Folded(list: seq<Requirement>, evidence: seq<Evidence>, views: Views): Analysis {
    if list == [] then Analysis([], evidence, [], [], [])
    else
      var last := |list| - 1;
      Extended(Folded(list[..last], evidence, views), list[last], views.claim(list[last], last), views.bound(list[last]),
               views.declaration)
  }

  function Reviewed(list: seq<Requirement>, run: Run, reader: Reader, now: int): Analysis {
    Folded(list, EvidenceFromEvents(run, reader), ViewsOf(run, reader, now))
  }

  lemma FoldedOneMore(list: seq<Requirement>, i: nat, evidence: seq<Evidence>, views: Views)
    requires i < |list|
    ensures Folded(list[..i + 1], evidence, views)
            == Extended(Folded(list[..i], evidence, views), list[i], views.claim(list[i], i), views.bound(list[i]), views.declaration)
  {
    assert list[..i + 1][..i] == list[..i];
  }

  /** None when some event does not decode or some requirement has no ID or no text. */
  method AnalyzeCodeChangeReview(run: Run, reader: Reader, now: int) returns (result: Option<Analysis>)
    ensures result.None? <==>
              (exists i | 0 <= i < |run.events| :: !Decodes(run.events[i], reader))
              || exists i | 0 <= i < |Requirements(run.events, reader)| :: Blank(Requirements(run.events, reader)[i])
    ensures result.Some? ==> result.value == Reviewed(Requirements(run.events, reader), run, reader, now)
  {
    var gathered := Gather(run, reader);
    if gathered.None? {
      return None;
    }
    var requirements := Declared(gathered.value, run, reader);
    ViewsSee(run, reader, now);
    result := ReviewAll(requirements, gathered.value, run, reader, now, EvidenceFromEvents(run, reader), Declaration(run, reader).id,
                        ViewsOf(run, reader, now));
  }

  method Declared(g: Gathered, run: Run, reader: Reader) returns (requirements: seq<Requirement>)
    requires g.declaration == DeclarationAt(run.events)
    requires forall i | 0 <= i < |run.events| :: Decodes(run.events[i], reader)
    ensures requirements == Requirements(run.events, reader)
  {
    if g.declaration.None? {
      return [];
    }
    assert Decodes(run.events[g.declaration.value], reader);
    requirements := reader.requirements(run.events[g.declaration.value].payload).value;
  }

  /** The loop over the requirements. */
  method ReviewAll(list: seq<Requirement>, g: Gathered, run: Run, reader: Reader, now: int, evidence: seq<Evidence>,
                   declaration: string, ghost views: Views)
      returns (result: Option<Analysis>)
    requires GathersFrom(g, run.events, reader) && Sees(views, run, reader, now) && declaration == views.declaration
    ensures result.None? <==> exists i | 0 <= i < |list| :: views.blank(list[i])
    ensures result.Some? ==> result.value == Folded(list, evidence, views)
  {
    hide Extended, GathersFrom, Sees;
    var a := Analysis([], evidence, [], [], []);
    for index := 0 to |list|
      invariant a == Folded(list[..index], evidence, views)
      invariant forall i | 0 <= i < index :: !views.blank(list[i])
    {
      var refused := Refuse(list[index], run, reader, now, views);
      if refused {
        return None;
      }
      FoldedOneMore(list, index, evidence, views);
      var claim, bound := ReviewRequirement(list[index], index, g, run, reader, now, views);
      a := Extend(a, list[index], claim, bound, declaration);
    }
    assert list[..|list|] == list;
    result := Some(a);
  }

  method Refuse(r: Requirement, run: Run, reader: Reader, now: int, ghost views: Views) returns (refused: bool)
    requires Sees(views, run, reader, now)
    ensures refused == views.blank(r)
  {
    assert SeesOne(views, r, 0, run, reader, now);
    refused := TrimSpace(r.id) == "" || TrimSpace(r.text) == "";
  }

  method Extend(before: Analysis, r: Requirement, claim: Claim, bound: seq<Evidence>, declaration: string) returns (a: Analysis)
    ensures a == Extended(before, r, claim, bound, declaration)
  {
    a := before.(claims := before.claims + [claim]);
    for k := 0 to |bound|
      invariant a == before.(claims := before.claims + [claim],
                             relations := before.relations + Bindings(bound[..k], claim, declaration))
    {
      assert Bindings(bound[..k + 1], claim, declaration) == Bindings(bound[..k], claim, declaration)
             + [BindingOf(bound[k], claim, declaration)];
      a := a.(relations := a.relations + [BindingOf(bound[k], claim, declaration)]);
    }
    assert bound[..|bound|] == bound;
    if claim.critical && claim.state.VerificationPending? {
      a := a.(assumptions := a.assumptions + [OpenAssumption(r, claim)], unknowns := a.unknowns + [OpenUnknown(r)]);
    }
  }

  ghost predicate SeesOne(views: Views, r: Requirement, i: nat, run: Run, reader: Reader, now: int) {
    && views.claim(r, i) == ClaimFor(r, i, run, reader, now) && views.bound(r) == Bound(r, run, reader)
    && views.blank(r) == Blank(r)
  }

  ghost predicate Sees(views: Views, run: Run, reader: Reader, now: int) {
    forall r: Requirement, i: nat {:trigger SeesOne(views, r, i, run, reader, now)} :: SeesOne(views, r, i, run, reader, now)
  }

  lemma ViewsSee(run: Run, reader: Reader, now: int)
    ensures Sees(ViewsOf(run, reader, now), run, reader, now)
  {
    var views := ViewsOf(run, reader, now);
    forall r: Requirement, i: nat ensures SeesOne(views, r, i, run, reader, now) {
    }
  }

  /** One round of the loop over the requirements. */
  method ReviewRequirement(r: Requirement, index: nat, g: Gathered, run: Run, reader: Reader, now: int, ghost views: Views)
      returns (claim: Claim, bound: seq<Evidence>)
    requires GathersFrom(g, run.events, reader) && Sees(views, run, reader, now)
    ensures claim == views.claim(r, index) && bound == views.bound(r)
  {
    hide AssessmentsAt, Justification;
    assert SeesOne(views, r, index, run, reader, now);
    var kinds := r.kinds;
    if |kinds| == 0 {
      kinds := ["code_diff", "test_result"];
    }
    var at := g.AssessedAt(r.id);
    var observations := AssessmentsAt(run.events, reader, at);
    var cited := FollowReferences(observations, g, run, reader);
    var artifacts := DedupeEvidence(cited);
    var state, justification := ReviewState(observations, artifacts, kinds, reader);
    bound := DedupeEvidence([Declaration(run, reader)] + ObservedEvidence(run, reader, at) + artifacts);
    var support := SupportFor(bound, state, now);
    claim := Claim(ClaimName(index), "", r.text, "request requirement " + r.id, r.critical,
                   if r.critical then "critical" else "supporting", kinds, state, justification, support,
                   seq(|bound|, k requires 0 <= k < |bound| => bound[k].id), 0);
  }

  /** The nested loop over assessments and their references. */
  method FollowReferences(observations: seq<Assessment>, g: Gathered, run: Run, reader: Reader) returns (cited: seq<Evidence>)
    requires GathersFrom(g, run.events, reader)
    ensures cited == AllReferenced(observations, run, reader)
  {
    hide ArtifactAt;
    cited := [];
    for i := 0 to |observations|
      invariant cited == AllReferenced(observations[..i], run, reader)
    {
      assert observations[..i + 1][..i] == observations[..i];
      var refs := observations[i].refs;
      ghost var before := cited;
      for j := 0 to |refs|
        invariant cited == before + Referenced(refs[..j], run, reader)
      {
        assert refs[..j + 1][..j] == refs[..j];
        var seen := g.SeenAt(refs[j]);
        assert seen == ArtifactAt(run.events, reader, refs[j]);
        if seen.Some? {
          cited := cited + [EvidenceOf(run.events[seen.value], run.id, reader)];
        }
      }
      assert refs[..|refs|] == refs;
    }
    assert observations[..|observations|] == observations;
  }

  /** One claim per requirement, in order. */
  lemma {:induction false} OneClaimPerRequirement(list: seq<Requirement>, evidence: seq<Evidence>, views: Views)
    ensures var a := Folded(list, evidence, views);
            |a.claims| == |list| && forall i | 0 <= i < |list| :: a.claims[i] == views.claim(list[i], i)
    ensures Folded(list, evidence, views).evidence == evidence
  {
    if list != [] {
      OneClaimPerRequirement(list[..|list| - 1], evidence, views);
    }
  }

  /** Unknowns are open critical ones, and there is one exactly when a critical requirement
      is pending. */
  lemma {:induction false} OpenUnknownsArePending(list: seq<Requirement>, evidence: seq<Evidence>, views: Views)
    ensures forall u | u in Folded(list, evidence, views).unknowns :: u.critical && !u.resolved
    ensures Folded(list, evidence, views).unknowns != [] <==> exists c | c in Folded(list, evidence, views).claims :: Open(c)
  {
    if list != [] {
      var last := |list| - 1;
      OpenUnknownsArePending(list[..last], evidence, views);
      assert views.claim(list[last], last) in Folded(list, evidence, views).claims;
    }
  }
}
