/** Protocol messages (api/go/types.go), their validation (api/go/validate.go), and the
    hash under which two deliveries of one event are compared (api/go/canonical.go). */
module Protocol {
  import opened Text
  import opened Json
  import Header
  import opened StructJson
  import EventJson

  const VERSION := "0.1"

  /** SHA-256 in hexadecimal, of canonical text: any function can play it; the theorems
      that need it to be collision-free say so. */
  type Sha = Raw -> string

  ghost predicate CollisionFree(sha: Sha) {
    forall a, b :: sha(a) == sha(b) ==> a == b
  }

  datatype Source = Source(name: string, version: string, instance: string)
  datatype Subject = Subject(kind: string, id: string)

  /** `time` counts nanoseconds from Go's zero time. `data` is None for an empty message. */
  datatype Event = Event(
    specVersion: string, id: string, kind: string, source: Source, subject: Subject, time: nat,
    context: Header.Context, sequence: Int64, partition: string, idempotencyKey: string,
    data: Option<Raw>, extensions: map<string, Raw>, unknown: map<string, Raw>)

  const EVENT_TYPES := [
    "decision.started", "decision.requested", "decision.evaluated", "decision.blocked", "decision.approved",
    "decision.completed", "claim.declared", "claim.updated", "claim.supported", "claim.contradicted",
    "claim.superseded", "claim.rejected", "evidence.discovered", "evidence.attached", "evidence.expired",
    "evidence.invalidated", "assumption.declared", "assumption.resolved", "unknown.declared", "unknown.resolved",
    "contradiction.detected", "contradiction.resolved", "verification.requested", "verification.approved",
    "verification.started", "verification.completed", "verification.failed", "proof.issued", "proof.revoked",
    "proof.superseded"]

  predicate KnownType(kind: string) { kind in EVENT_TYPES }

  /** `ValidateEvent` returns no error. */
  predicate Valid(e: Event) {
    && e.specVersion == VERSION
    && TrimSpace(e.id) != ""
    && KnownType(e.kind)
    && TrimSpace(e.source.name) != ""
    && e.subject.kind != "" && e.subject.id != ""
    && e.time != 0
    && e.data.Some?
    && e.sequence >= 0
  }

  lemma ValidEventHasId(e: Event)
    requires Valid(e)
    ensures e.id != "" && e.sequence >= 0
  {
    assert TrimSpace("") == "";
  }

  // ---- JSON

  const SOURCE := [StringField("name"), OptionalString("version"), OptionalString("instance")]
  const SUBJECT := [StringField("type"), StringField("id")]
  const CONTEXT := [OptionalString("decision_id"), OptionalString("run_id"), OptionalString("correlation_id"), OptionalString("parent_id")]
  const ORDERING := [Field("sequence", IntKind, true), OptionalString("partition")]

  const EVENT := [
    StringField("spec_version"), StringField("id"), StringField("type"), Field("source", StructKind(SOURCE), false),
    Field("subject", StructKind(SUBJECT), false), Field("time", TimeKind, false), Field("context", StructKind(CONTEXT), true),
    Field("ordering", StructKind(ORDERING), true), OptionalString("idempotency_key"), Field("data", RawKind, false),
    Field("extensions", MapKind, true)]

  function OfSource(s: Source): (v: Value)
    ensures Fits(StructKind(SOURCE), v)
  {
    var parts := [Str(s.name), Str(s.version), Str(s.instance)];
    assert FitAll(SOURCE, parts);
    Record(parts)
  }

  function ToSource(v: Value): (s: Source)
    requires Fits(StructKind(SOURCE), v)
    ensures OfSource(s) == v
  {
    assert FitAll(SOURCE, v.parts);
    assert Fits(SOURCE[0].kind, v.parts[0]) && Fits(SOURCE[1].kind, v.parts[1]) && Fits(SOURCE[2].kind, v.parts[2]);
    Source(v.parts[0].s, v.parts[1].s, v.parts[2].s)
  }

  function OfSubject(s: Subject): (v: Value)
    ensures Fits(StructKind(SUBJECT), v)
  {
    var parts := [Str(s.kind), Str(s.id)];
    assert FitAll(SUBJECT, parts);
    Record(parts)
  }

  function ToSubject(v: Value): (s: Subject)
    requires Fits(StructKind(SUBJECT), v)
    ensures OfSubject(s) == v
  {
    assert FitAll(SUBJECT, v.parts);
    assert Fits(SUBJECT[0].kind, v.parts[0]) && Fits(SUBJECT[1].kind, v.parts[1]);
    Subject(v.parts[0].s, v.parts[1].s)
  }

  function OfContext(c: Header.Context): (v: Value)
    ensures Fits(StructKind(CONTEXT), v)
  {
    var parts := [Str(c.decision), Str(c.run), Str(c.correlation), Str(c.parent)];
    assert FitAll(CONTEXT, parts);
    Record(parts)
  }

  function ToContext(v: Value): (c: Header.Context)
    requires Fits(StructKind(CONTEXT), v)
    ensures OfContext(c) == v
  {
    var p := v.parts;
    assert FitAll(CONTEXT, p);
    assert Fits(CONTEXT[0].kind, p[0]) && Fits(CONTEXT[1].kind, p[1]) && Fits(CONTEXT[2].kind, p[2]) && Fits(CONTEXT[3].kind, p[3]);
    Header.Context(p[0].s, p[1].s, p[2].s, p[3].s)
  }

  function OfOrdering(sequence: Int64, partition: string): (v: Value)
    ensures Fits(StructKind(ORDERING), v)
  {
    var parts := [Int(sequence), Str(partition)];
    assert FitAll(ORDERING, parts);
    Record(parts)
  }

  function ToOrdering(v: Value): (o: (Int64, string))
    requires Fits(StructKind(ORDERING), v)
    ensures OfOrdering(o.0, o.1) == v
  {
    assert FitAll(ORDERING, v.parts);
    assert Fits(ORDERING[0].kind, v.parts[0]) && Fits(ORDERING[1].kind, v.parts[1]);
    (v.parts[0].n, v.parts[1].s)
  }

  /** The event's fields in tag order. */
  function Parts(e: Event): (parts: seq<Value>)
    ensures FitAll(EVENT, parts)
  {
    [Str(e.specVersion), Str(e.id), Str(e.kind), OfSource(e.source), OfSubject(e.subject), Time(e.time),
     OfContext(e.context), OfOrdering(e.sequence, e.partition), Str(e.idempotencyKey), Message(e.data), Entries(e.extensions)]
  }

  function ToWire(e: Event): EventJson.Wire {
    EventJson.Wire(Parts(e), e.unknown)
  }

  lemma {:induction false} EventKinds(p: seq<Value>)
    requires FitAll(EVENT, p)
    ensures p[0].Str? && p[1].Str? && p[2].Str? && p[5].Time? && p[8].Str? && p[9].Message? && p[10].Entries?
    ensures Fits(StructKind(SOURCE), p[3]) && Fits(StructKind(SUBJECT), p[4])
    ensures Fits(StructKind(CONTEXT), p[6]) && Fits(StructKind(ORDERING), p[7])
  {
    forall i | 0 <= i < |EVENT| ensures Fits(EVENT[i].kind, p[i]) {
    }
    assert Fits(EVENT[0].kind, p[0]) && Fits(EVENT[1].kind, p[1]) && Fits(EVENT[2].kind, p[2]);
    assert Fits(EVENT[3].kind, p[3]) && Fits(EVENT[4].kind, p[4]) && Fits(EVENT[5].kind, p[5]);
    assert Fits(EVENT[6].kind, p[6]) && Fits(EVENT[7].kind, p[7]) && Fits(EVENT[8].kind, p[8]);
    assert Fits(EVENT[9].kind, p[9]) && Fits(EVENT[10].kind, p[10]);
  }

  function FromWire(w: EventJson.Wire): (e: Event)
    requires FitAll(EVENT, w.parts)
    ensures ToWire(e) == w
  {
    var p := w.parts;
    EventKinds(p);
    var ordering := ToOrdering(p[7]);
    Event(p[0].s, p[1].s, p[2].s, ToSource(p[3]), ToSubject(p[4]), p[5].t, ToContext(p[6]), ordering.0, ordering.1,
          p[8].s, p[9].raw, p[10].entries, w.unknown)
  }

  function Marshal(e: Event): Raw {
    RObject(EventJson.Format(EVENT, ToWire(e)))
  }

  /** Decoding an event; None is an error. Null is read as an object without members. */
  function Unmarshal(raw: Raw): Option<Event> {
    if !raw.RObject? && !raw.RNull? then None
    else
      match EventJson.Parse(EVENT, if raw.RObject? then raw.members else [])
      case None => None
      case Some(w) => Some(FromWire(w))
  }

  function Hash(e: Event, sha: Sha): string {
    sha(Canonical(Marshal(e)))
  }

  /** The two events denote the same JSON value. */
  predicate SameJson(a: Event, b: Event) {
    Decode(Marshal(a)) == Decode(Marshal(b))
  }

  lemma HashDecidesSameJson(a: Event, b: Event, sha: Sha)
    requires CollisionFree(sha)
    ensures Hash(a, sha) == Hash(b, sha) <==> SameJson(a, b)
  {
    CanonicalDecidesEquality(Marshal(a), Marshal(b));
  }

  // ---- Events survive the trip

  lemma NamesAreLowerCase()
    ensures forall i | 0 <= i < |EVENT| :: Fold(EVENT[i].name) == EVENT[i].name
  {
    hide Fold;
    NoCapitals("spec_version");
    NoCapitals("id");
    NoCapitals("type");
    NoCapitals("source");
    NoCapitals("subject");
    NoCapitals("time");
    NoCapitals("context");
    NoCapitals("ordering");
    NoCapitals("idempotency_key");
    NoCapitals("data");
    NoCapitals("extensions");
  }

  lemma InnerNamesAreLowerCase()
    ensures forall i | 0 <= i < |SOURCE| :: Fold(SOURCE[i].name) == SOURCE[i].name
    ensures forall i | 0 <= i < |SUBJECT| :: Fold(SUBJECT[i].name) == SUBJECT[i].name
    ensures forall i | 0 <= i < |CONTEXT| :: Fold(CONTEXT[i].name) == CONTEXT[i].name
    ensures forall i | 0 <= i < |ORDERING| :: Fold(ORDERING[i].name) == ORDERING[i].name
  {
    hide Fold;
    NoCapitals("name");
    NoCapitals("version");
    NoCapitals("instance");
    NoCapitals("type");
    NoCapitals("id");
    NoCapitals("decision_id");
    NoCapitals("run_id");
    NoCapitals("correlation_id");
    NoCapitals("parent_id");
    NoCapitals("sequence");
    NoCapitals("partition");
  }

  lemma InnerNamesAreDistinct()
    ensures forall i, j | 0 <= i < j < |SOURCE| :: SOURCE[i].name != SOURCE[j].name
    ensures forall i, j | 0 <= i < j < |SUBJECT| :: SUBJECT[i].name != SUBJECT[j].name
    ensures forall i, j | 0 <= i < j < |CONTEXT| :: CONTEXT[i].name != CONTEXT[j].name
    ensures forall i, j | 0 <= i < j < |ORDERING| :: ORDERING[i].name != ORDERING[j].name
  {
    assert "type"[0] == 't' && "id"[0] == 'i' && "sequence"[0] == 's' && "partition"[0] == 'p';
  }

  lemma NamesAreDistinct()
    ensures forall i, j | 0 <= i < j < |EVENT| :: EVENT[i].name != EVENT[j].name
  {
    assert "spec_version"[1] == 'p' && "subject"[1] == 'u' && "source"[1] == 'o';
    assert "id"[1] == 'd' && "idempotency_key"[2] == 'e' && |"id"| == 2;
    assert "type"[1] == 'y' && "time"[1] == 'i';
  }

  lemma InnerNames()
    ensures WellNamed(SOURCE) && WellNamed(SUBJECT) && WellNamed(CONTEXT) && WellNamed(ORDERING)
  {
    hide Fold;
    InnerNamesAreLowerCase();
    InnerNamesAreDistinct();
  }

  lemma EventSchemaIsValid()
    ensures WellNamed(EVENT) && Plain(StructKind(EVENT))
  {
    hide Fold;
    NamesAreLowerCase();
    NamesAreDistinct();
    InnerNames();
  }

  lemma {:induction false} SimpleIsSolid(field: Field, part: Value)
    requires Fits(field.kind, part) && (part.Str? || part.Time? || part.Int? || part.Entries?)
    ensures SolidPart(field, part)
  {
  }

  lemma {:induction false} SimplesAreSolid(fields: seq<Field>, parts: seq<Value>)
    requires FitAll(fields, parts) && forall i | 0 <= i < |fields| :: parts[i].Str? || parts[i].Int?
    ensures Solid(StructKind(fields), Record(parts))
  {
    forall i | 0 <= i < |fields| ensures SolidPart(fields[i], parts[i]) {
      SimpleIsSolid(fields[i], parts[i]);
    }
  }

  lemma {:induction false} EventIsSolid(e: Event)
    requires e.data.Some?
    ensures forall i | 0 <= i < |EVENT| :: SolidPart(EVENT[i], Parts(e)[i])
  {
    var p := Parts(e);
    SimplesAreSolid(SOURCE, p[3].parts);
    SimplesAreSolid(SUBJECT, p[4].parts);
    SimplesAreSolid(CONTEXT, p[6].parts);
    SimplesAreSolid(ORDERING, p[7].parts);
    forall i | i in [0, 1, 2, 5, 8, 10] ensures SolidPart(EVENT[i], p[i]) {
      SimpleIsSolid(EVENT[i], p[i]);
    }
    assert SolidPart(EVENT[3], p[3]) && SolidPart(EVENT[4], p[4]) && SolidPart(EVENT[6], p[6]);
    assert SolidPart(EVENT[7], p[7]) && SolidPart(EVENT[9], p[9]);
  }

  lemma {:induction false} WireFixesTheEvent(a: Event, b: Event)
    requires ToWire(a) == ToWire(b)
    ensures a == b
  {
    var p, q := Parts(a), Parts(b);
    assert p[0] == q[0] && p[1] == q[1] && p[2] == q[2] && p[3] == q[3] && p[4] == q[4] && p[5] == q[5];
    assert p[6] == q[6] && p[7] == q[7] && p[8] == q[8] && p[9] == q[9] && p[10] == q[10];
    assert p[3].parts[0] == q[3].parts[0] && p[3].parts[1] == q[3].parts[1] && p[3].parts[2] == q[3].parts[2];
    assert p[4].parts[0] == q[4].parts[0] && p[4].parts[1] == q[4].parts[1];
    assert p[6].parts[0] == q[6].parts[0] && p[6].parts[1] == q[6].parts[1];
    assert p[6].parts[2] == q[6].parts[2] && p[6].parts[3] == q[6].parts[3];
    assert p[7].parts[0] == q[7].parts[0] && p[7].parts[1] == q[7].parts[1];
  }

  /** A nil message is written as null and read back as the text null. */
  lemma {:induction false} NilDataIsLost(e: Event)
    requires e.data.None? && EventJson.Parse(EVENT, EventJson.Format(EVENT, ToWire(e))).Some?
    ensures EventJson.Parse(EVENT, EventJson.Format(EVENT, ToWire(e))).value != ToWire(e)
  {
    hide EventJson.Parse, EventJson.Format, WellNamed, FitAll;
    EventSchemaIsValid();
    assert EVENT[9] == Field("data", RawKind, false) && Parts(e)[9] == Message(None) && |EVENT| == 11;
    EventJson.NilMessageIsLost(EVENT, ToWire(e), 9);
  }

  /** An event is read back as it was written exactly when it has data, none of its unknown
      members is named like a field, and the variants of every field are quiet. */
  lemma {:induction false} EventComesBack(e: Event)
    ensures Unmarshal(Marshal(e)) == Some(e)
            <==> e.data.Some? && e.unknown.Keys !! EventJson.Names(EVENT) && EventJson.Quiet(EVENT, ToWire(e))
  {
    hide EventJson.Parse, EventJson.Format, EventJson.Quiet, Parts, Solid, SolidPart, WellNamed, Plain;
    EventSchemaIsValid();
    var back := EventJson.Parse(EVENT, EventJson.Format(EVENT, ToWire(e)));
    if back.Some? && FromWire(back.value) != e {
      assert back.value != ToWire(e) by {
        if back.value == ToWire(e) {
          WireFixesTheEvent(FromWire(back.value), e);
        }
      }
    }
    if e.data.None? {
      if back.Some? {
        NilDataIsLost(e);
      }
    } else {
      EventIsSolid(e);
      EventJson.DecodeUndoesEncode(EVENT, ToWire(e));
    }
  }

  // ---- Inputs on which it fails

  /** `{"id": a, "ID": b}`: the event gets the second ID, and keeps it as an unknown member too. */
  lemma {:induction false} UpperCaseIdWins(a: string, b: string)
    ensures var e := Unmarshal(RObject([Member("id", RString(a)), Member("ID", RString(b))]));
            e.Some? && e.value.id == b && e.value.unknown == map["ID" := RString(b)]
  {
    hide FromWire, EventJson.Parse, WellNamed;
    EventSchemaIsValid();
    UpperCase("ID", "id");
    assert "ID"[0] == 'I';
    EventJson.LaterVariantWins(EVENT, 1, "ID", a, b);
    var e := Unmarshal(RObject([Member("id", RString(a)), Member("ID", RString(b))]));
    assert Parts(e.value)[1] == Str(e.value.id);
  }

  /** An event whose unknown members all spell the name of field `i` is read back changed in
      that field only. */
  lemma {:induction false} ReadBackChanged(e: Event, i: nat, told: seq<Raw>, back: Event)
    requires e.data.Some? && i < |EVENT| && back.unknown == e.unknown
    requires forall k | k in e.unknown :: Fold(k) != k && Fold(k) == EVENT[i].name
    requires EventJson.Before(ToWire(e), EVENT[i].name) == told && EventJson.After(ToWire(e), EVENT[i].name) == []
    requires Fits(EVENT[i].kind, Parts(back)[i]) && Parts(back) == Parts(e)[i := Parts(back)[i]]
    requires ReadAll(EVENT[i].kind, Zero(EVENT[i].kind), told + Own(EVENT[i], Parts(e)[i])) == Some(Parts(back)[i])
    ensures Unmarshal(Marshal(e)) == Some(back)
  {
    hide EventJson.Parse, EventJson.Format, EventJson.Before, EventJson.After, Parts, SolidPart, ReadAll, Own, WellNamed;
    EventSchemaIsValid();
    EventIsSolid(e);
    forall k | k in e.unknown ensures k !in EventJson.Names(EVENT) {
      assert forall j | 0 <= j < |EVENT| :: Fold(EVENT[j].name) == EVENT[j].name by { NamesAreLowerCase(); }
    }
    var own := Own(EVENT[i], Parts(e)[i]);
    assert told + own + [] == told + own;
    EventJson.VariantsOfOneField(EVENT, ToWire(e), i, Parts(back)[i]);
    WireFixesTheEvent(FromWire(ToWire(back)), back);
  }

  lemma {:induction false} KeyVariant(e: Event, raw: Raw, key: string)
    requires e.data.Some? && e.unknown == map["IDEMPOTENCY_KEY" := raw]
    requires ReadAll(StringKind, Str(""), [raw] + Own(EVENT[8], Str(e.idempotencyKey))) == Some(Str(key))
    ensures Unmarshal(Marshal(e)) == Some(e.(idempotencyKey := key))
  {
    hide ReadAll, Own, SortedMembers, Fits, EventJson.Before, EventJson.After;
    var variant := "IDEMPOTENCY_KEY";
    UpperCase(variant, "idempotency_key");
    assert variant[0] == 'I';
    EventJson.OneBefore(ToWire(e), variant);
    var back := e.(idempotencyKey := key);
    assert Parts(back) == Parts(e)[8 := Parts(back)[8]];
    ReadBackChanged(e, 8, [raw], back);
  }

  /** An event without a key, with the unknown member `"IDEMPOTENCY_KEY": key`, is read back
      with that key. */
  lemma {:induction false} UpperCaseKeyIsReadBack(e: Event, key: string)
    requires e.data.Some? && e.idempotencyKey == "" && key != "" && e.unknown == map["IDEMPOTENCY_KEY" := RString(key)]
    ensures Unmarshal(Marshal(e)) == Some(e.(idempotencyKey := key)) && Unmarshal(Marshal(e)) != Some(e)
  {
    KeyVariant(e, RString(key), key);
  }

  lemma {:induction false} NullIsSkipped(field: Field, text: string)
    requires field.kind.StringKind?
    ensures ReadAll(StringKind, Str(""), [RNull] + Own(field, Str(text))) == Some(Str(text))
  {
    hide Fold;
    assert [] + [RNull] == [RNull];
    ReadAllOneMore(StringKind, Str(""), [], RNull);
    if Shown(field, Str(text)) {
      ReadAllOneMore(StringKind, Str(""), [RNull], RString(text));
    } else {
      assert [RNull] + [] == [RNull];
    }
  }

  /** With null in that place the event comes back whole. */
  lemma {:induction false} NullKeyIsIgnored(e: Event)
    requires e.data.Some? && e.unknown == map["IDEMPOTENCY_KEY" := RNull]
    ensures Unmarshal(Marshal(e)) == Some(e)
  {
    hide ReadAll, Own, Marshal, Unmarshal;
    NullIsSkipped(EVENT[8], e.idempotencyKey);
    KeyVariant(e, RNull, e.idempotencyKey);
  }

  /** The unknown member `"CONTEXT": {"parent_id": parent}` gives an event without a parent
      that parent: Go sorts the capital letters first and merges the objects. */
  lemma {:induction false} UpperCaseContextIsMerged(e: Event, parent: string)
    requires e.data.Some? && e.context.parent == "" && parent != ""
    requires e.unknown == map["CONTEXT" := RObject([Member("parent_id", RString(parent))])]
    ensures Unmarshal(Marshal(e)) == Some(e.(context := e.context.(parent := parent))) && Unmarshal(Marshal(e)) != Some(e)
  {
    hide ReadAll, Own, SortedMembers, Fits, EventJson.Before, EventJson.After;
    var variant := "CONTEXT";
    UpperCase(variant, "context");
    assert variant[0] == 'C';
    EventJson.OneBefore(ToWire(e), variant);
    var back := e.(context := e.context.(parent := parent));
    assert Parts(back) == Parts(e)[6 := Parts(back)[6]];
    ContextMerged(e.context, parent);
    ReadBackChanged(e, 6, [e.unknown[variant]], back);
  }

  lemma {:induction false} ContextMerged(c: Header.Context, parent: string)
    requires c.parent == ""
    ensures ReadAll(StructKind(CONTEXT), Zero(StructKind(CONTEXT)),
                    [RObject([Member("parent_id", RString(parent))])] + Own(EVENT[6], OfContext(c)))
            == Some(OfContext(c.(parent := parent)))
  {
    hide Fold, ReadAll, Write, WellNamed, ValuesOf;
    var told := [Member("parent_id", RString(parent))];
    var parts, merged := OfContext(c).parts, OfContext(c.(parent := parent)).parts;
    forall i | 0 <= i < |CONTEXT|
      ensures ReadAll(CONTEXT[i].kind, Zero(CONTEXT[i].kind), ValuesOf(told, CONTEXT[i].name) + Own(CONTEXT[i], parts[i]))
              == Some(merged[i])
    {
      ContextFieldMerged(c, parent, i);
    }
    InnerNames();
    MergedStruct(CONTEXT, told, parts, merged);
    assert [RObject(told)] + Own(EVENT[6], OfContext(c)) == [RObject(told), Write(StructKind(CONTEXT), Record(parts))];
  }

  lemma {:induction false} ContextFieldMerged(c: Header.Context, parent: string, i: nat)
    requires c.parent == "" && i < |CONTEXT|
    ensures var told, field := [Member("parent_id", RString(parent))], CONTEXT[i];
            ReadAll(field.kind, Zero(field.kind), ValuesOf(told, field.name) + Own(field, OfContext(c).parts[i]))
            == Some(OfContext(c.(parent := parent)).parts[i])
  {
    hide Fold, ReadAll;
    var told, field, part := Member("parent_id", RString(parent)), CONTEXT[i], OfContext(c).parts[i];
    NoCapitals("parent_id");
    InnerNamesAreDistinct();
    assert field.name == CONTEXT[3].name ==> i == 3;
    ValuesOfOneMore([], told, field.name);
    assert [] + [told] == [told] && [] + Own(field, part) == Own(field, part) && [told.value] + [] == [told.value];
    SimpleIsSolid(field, part);
    OwnReads(field, part);
    ReadAllOneMore(StringKind, Str(""), [], told.value);
    assert [] + [told.value] == [told.value];
  }

  /** Extensions spelled in other cases are merged into none: an empty object among them
      does not undo an earlier entry. */
  lemma {:induction false} ExtensionsAreMerged(e: Event, key: string, value: Raw)
    requires e.data.Some? && e.extensions == map[]
    requires e.unknown == map["EXTENSIONS" := RObject([Member(key, value)]), "Extensions" := RObject([])]
    ensures Unmarshal(Marshal(e)) == Some(e.(extensions := map[key := value])) && Unmarshal(Marshal(e)) != Some(e)
  {
    hide Precedes, Fold, Marshal, Unmarshal;
    ExtensionsSpelled();
    ExtensionVariants(e, "EXTENSIONS", "Extensions", key, value);
  }

  lemma {:induction false} ExtensionVariants(e: Event, first: string, second: string, key: string, value: Raw)
    requires e.data.Some? && e.extensions == map[] && first != second
    requires e.unknown == map[first := RObject([Member(key, value)]), second := RObject([])]
    requires Fold(first) == Fold(second) == EVENT[10].name && Precedes(first, second) && Precedes(second, EVENT[10].name)
    requires first != EVENT[10].name && second != EVENT[10].name
    ensures Unmarshal(Marshal(e)) == Some(e.(extensions := map[key := value])) && Unmarshal(Marshal(e)) != Some(e)
  {
    hide ReadAll, Own, SortedMembers, Fits, EventJson.Before, EventJson.After, Precedes, Fold;
    EventJson.TwoBefore(ToWire(e), first, second);
    var back := e.(extensions := map[key := value]);
    assert Parts(back) == Parts(e)[10 := Parts(back)[10]];
    EntriesMerged(key, value);
    ReadBackChanged(e, 10, [e.unknown[first], e.unknown[second]], back);
    assert key in back.extensions;
  }

  lemma ExtensionsSpelled()
    ensures var first, second := "EXTENSIONS", "Extensions";
            && Fold(first) == Fold(second) == "extensions" && first != second
            && first != "extensions" && second != "extensions"
            && Precedes(first, second) && Precedes(second, "extensions")
  {
    var first, second := "EXTENSIONS", "Extensions";
    UpperCase(first, "extensions");
    UpperCase(second, "extensions");
    assert first[0] == 'E' && second[0] == 'E' && first[1..][0] == 'X' && second[1..][0] == 'x';
    assert "extensions"[0] == 'e';
  }

  lemma {:induction false} EntriesMerged(key: string, value: Raw)
    ensures ReadAll(MapKind, Entries(map[]), [RObject([Member(key, value)]), RObject([])] + Own(EVENT[10], Entries(map[])))
            == Some(Entries(map[key := value]))
  {
    var told := [RObject([Member(key, value)]), RObject([])];
    MapReads(told);
    assert told[..1][..0] == [] && told[..1] == [told[0]] && [Member(key, value)][..0] == [];
    assert Left(told[..1]) == map[] + map[key := value];
    assert Left(told) == map[key := value];
    assert told + Own(EVENT[10], Entries(map[])) == told;
  }

  /** Events with one JSON value have the same unknown members, by value. */
  lemma {:induction false} SameJsonCoversUnknown(a: Event, b: Event, key: string)
    requires SameJson(a, b) && key !in EventJson.Names(EVENT)
    ensures key in a.unknown <==> key in b.unknown
    ensures key in a.unknown ==> Decode(a.unknown[key]) == Decode(b.unknown[key])
  {
    hide EventJson.Format, EventJson.Names, Parts;
    EventSchemaIsValid();
    SameObjectsSameMembers(EventJson.Format(EVENT, ToWire(a)), EventJson.Format(EVENT, ToWire(b)));
    EventJson.DecodedAlikeUnknownAlike(EVENT, ToWire(a), ToWire(b), key);
  }

  lemma {:induction false} SameObjectsSameMembers(m: seq<Member>, n: seq<Member>)
    requires Decode(RObject(m)) == Decode(RObject(n))
    ensures DecodeMembers(m) == DecodeMembers(n)
  {
  }
}
