/** An event on the wire, member by member, and which events are valid: the names, texts and
    types of api/go/types.go and api/go/validate.go. */
module WireFormat {
  import opened Text
  import opened Json
  import opened StructJson
  import EventJson
  import Header
  import opened Protocol

  // ---- Validity

  /** The type names this subject and one of these actions. */
  ghost predicate Says(kind: string, subject: string, actions: seq<string>) {
    exists i | 0 <= i < |actions| :: kind == subject + "." + actions[i]
  }

  ghost const DECISION := ["started", "requested", "evaluated", "blocked", "approved", "completed"]
  ghost const CLAIM := ["declared", "updated", "supported", "contradicted", "superseded", "rejected"]
  ghost const EVIDENCE := ["discovered", "attached", "expired", "invalidated"]
  ghost const ASSUMPTION := ["declared", "resolved"]
  ghost const UNKNOWN := ["declared", "resolved"]
  ghost const CONTRADICTION := ["detected", "resolved"]
  ghost const VERIFICATION := ["requested", "approved", "started", "completed", "failed"]
  ghost const PROOF := ["issued", "revoked", "superseded"]

  /** What an event can be about, and what can have happened to it. */
  ghost predicate Known(kind: string) {
    || Says(kind, "decision", DECISION)
    || Says(kind, "claim", CLAIM)
    || Says(kind, "evidence", EVIDENCE)
    || Says(kind, "assumption", ASSUMPTION)
    || Says(kind, "unknown", UNKNOWN)
    || Says(kind, "contradiction", CONTRADICTION)
    || Says(kind, "verification", VERIFICATION)
    || Says(kind, "proof", PROOF)
  }

  /** The types of a subject. */
  ghost function Types(subject: string, actions: seq<string>): seq<string> {
    seq(|actions|, i requires 0 <= i < |actions| => subject + "." + actions[i])
  }

  lemma SaysTypes(kind: string, subject: string, actions: seq<string>)
    ensures Says(kind, subject, actions) <==> kind in Types(subject, actions)
  {
    if Says(kind, subject, actions) {
      var i :| 0 <= i < |actions| && kind == subject + "." + actions[i];
      assert Types(subject, actions)[i] == kind;
    }
  }

  lemma DecisionTypes()
    ensures Types("decision", DECISION) == ["decision.started", "decision.requested", "decision.evaluated",
                                            "decision.blocked", "decision.approved", "decision.completed"]
  {
    assert "decision" + "." + "started" == "decision.started";
    assert "decision" + "." + "requested" == "decision.requested";
    assert "decision" + "." + "evaluated" == "decision.evaluated";
    assert "decision" + "." + "blocked" == "decision.blocked";
    assert "decision" + "." + "approved" == "decision.approved";
    assert "decision" + "." + "completed" == "decision.completed";
  }

  lemma ClaimTypes()
    ensures Types("claim", CLAIM) == ["claim.declared", "claim.updated", "claim.supported", "claim.contradicted",
                                      "claim.superseded", "claim.rejected"]
  {
    assert "claim" + "." + "declared" == "claim.declared";
    assert "claim" + "." + "updated" == "claim.updated";
    assert "claim" + "." + "supported" == "claim.supported";
    assert "claim" + "." + "contradicted" == "claim.contradicted";
    assert "claim" + "." + "superseded" == "claim.superseded";
    assert "claim" + "." + "rejected" == "claim.rejected";
  }

  lemma EvidenceTypes()
    ensures Types("evidence", EVIDENCE) == ["evidence.discovered", "evidence.attached", "evidence.expired", "evidence.invalidated"]
  {
    assert "evidence" + "." + "discovered" == "evidence.discovered";
    assert "evidence" + "." + "attached" == "evidence.attached";
    assert "evidence" + "." + "expired" == "evidence.expired";
    assert "evidence" + "." + "invalidated" == "evidence.invalidated";
  }

  lemma AssumptionTypes()
    ensures Types("assumption", ASSUMPTION) == ["assumption.declared", "assumption.resolved"]
  {
    assert "assumption" + "." + "declared" == "assumption.declared";
    assert "assumption" + "." + "resolved" == "assumption.resolved";
  }

  lemma UnknownTypes()
    ensures Types("unknown", UNKNOWN) == ["unknown.declared", "unknown.resolved"]
  {
    assert "unknown" + "." + "declared" == "unknown.declared";
    assert "unknown" + "." + "resolved" == "unknown.resolved";
  }

  lemma ContradictionTypes()
    ensures Types("contradiction", CONTRADICTION) == ["contradiction.detected", "contradiction.resolved"]
  {
    assert "contradiction" + "." + "detected" == "contradiction.detected";
    assert "contradiction" + "." + "resolved" == "contradiction.resolved";
  }

  lemma VerificationTypes()
    ensures Types("verification", VERIFICATION) == ["verification.requested", "verification.approved",
                                                    "verification.started", "verification.completed", "verification.failed"]
  {
    assert "verification" + "." + "requested" == "verification.requested";
    assert "verification" + "." + "approved" == "verification.approved";
    assert "verification" + "." + "started" == "verification.started";
    assert "verification" + "." + "completed" == "verification.completed";
    assert "verification" + "." + "failed" == "verification.failed";
  }

  lemma ProofTypes()
    ensures Types("proof", PROOF) == ["proof.issued", "proof.revoked", "proof.superseded"]
  {
    assert "proof" + "." + "issued" == "proof.issued";
    assert "proof" + "." + "revoked" == "proof.revoked";
    assert "proof" + "." + "superseded" == "proof.superseded";
  }

  ghost function AllTypes(): seq<string> {
    Types("decision", DECISION)
    + Types("claim", CLAIM)
    + Types("evidence", EVIDENCE)
    + Types("assumption", ASSUMPTION)
    + Types("unknown", UNKNOWN)
    + Types("contradiction", CONTRADICTION)
    + Types("verification", VERIFICATION)
    + Types("proof", PROOF)
  }

  lemma AllTypesAre()
    ensures AllTypes() == EVENT_TYPES
  {
    hide Types;
    DecisionTypes();
    ClaimTypes();
    EvidenceTypes();
    AssumptionTypes();
    UnknownTypes();
    ContradictionTypes();
    VerificationTypes();
    ProofTypes();
  }

  lemma KnownExactly(kind: string)
    ensures KnownType(kind) <==> Known(kind)
  {
    AllTypesAre();
    KnownAmong(kind);
  }

  lemma KnownAmong(kind: string)
    ensures kind in AllTypes() <==> Known(kind)
  {
    hide Says, Types;
    SaysTypes(kind, "decision", DECISION);
    SaysTypes(kind, "claim", CLAIM);
    SaysTypes(kind, "evidence", EVIDENCE);
    SaysTypes(kind, "assumption", ASSUMPTION);
    SaysTypes(kind, "unknown", UNKNOWN);
    SaysTypes(kind, "contradiction", CONTRADICTION);
    SaysTypes(kind, "verification", VERIFICATION);
    SaysTypes(kind, "proof", PROOF);
  }

  lemma TrimmedAway(s: string)
    ensures TrimSpace(s) == "" <==> AllSpace(s)
  {
    var i, j := TrimSpaceCuts(s);
    if i < j {
      assert s[i] in s;
    } else {
      assert s == s[..i] + s[j..];
    }
  }

  /** An event is valid exactly when it has this version, a visible ID and source, a known
      type, a subject, a time, data, and no negative sequence. */
  lemma ValidExactly(e: Event)
    ensures Valid(e) <==>
              && e.specVersion == "0.1" && !AllSpace(e.id) && Known(e.kind) && !AllSpace(e.source.name)
              && e.subject.kind != "" && e.subject.id != "" && e.time > 0 && e.data.Some? && e.sequence >= 0
  {
    hide Known, KnownType, TrimSpace, AllSpace;
    KnownExactly(e.kind);
    TrimmedAway(e.id);
    TrimmedAway(e.source.name);
  }

  // ---- Members

  ghost predicate Tells(m: map<string, Json>, name: string, value: string) {
    name in m && m[name] == String(value)
  }

  /** Left out when it is empty. */
  ghost predicate TellsUnlessEmpty(m: map<string, Json>, name: string, value: string) {
    if value == "" then name !in m else Tells(m, name, value)
  }

  /** Each shown field is a member, and there is no other but the unknown ones. */
  lemma {:induction false} MessageMembers(fields: seq<Field>, w: EventJson.Wire)
    requires WellNamed(fields) && FitAll(fields, w.parts)
    ensures var m := DecodeMembers(EventJson.Format(fields, w));
            && (forall i | 0 <= i < |fields| :: fields[i].name in m <==> Shown(fields[i], w.parts[i]))
            && (forall i | 0 <= i < |fields| && Shown(fields[i], w.parts[i]) ::
                  m[fields[i].name] == Decode(Write(fields[i].kind, w.parts[i])))
            && (forall k | k !in EventJson.Names(fields) :: k in m <==> k in w.unknown)
            && (forall k | k !in EventJson.Names(fields) && k in w.unknown :: m[k] == Decode(w.unknown[k]))
  {
    hide EventJson.Format, EventJson.AllFields, Write, Shown, EventJson.Names, WellNamed;
    EventJson.EncodedHoldsEverything(fields, w);
    forall k ensures k in DecodeMembers(EventJson.Format(fields, w)) <==> k in EventJson.AllFields(fields, w)
             ensures k in EventJson.AllFields(fields, w) ==>
                       DecodeMembers(EventJson.Format(fields, w))[k] == Decode(EventJson.AllFields(fields, w)[k]) {
      EventJson.EncodedDecodes(fields, w, k);
    }
  }

  lemma {:induction false} StructMembers(fields: seq<Field>, parts: seq<Value>)
    requires WellNamed(fields) && FitAll(fields, parts)
    ensures var v := Decode(Write(StructKind(fields), Record(parts)));
            && v.Object?
            && (forall i | 0 <= i < |fields| :: fields[i].name in v.members <==> Shown(fields[i], parts[i]))
            && (forall i | 0 <= i < |fields| && Shown(fields[i], parts[i]) ::
                  v.members[fields[i].name] == Decode(Write(fields[i].kind, parts[i])))
            && (forall k | k in v.members :: k in EventJson.Names(fields))
  {
    hide EventJson.Names, WellNamed, Shown;
    MessageMembers(fields, EventJson.Wire(parts, map[]));
  }

  ghost predicate SourceTold(v: Json, s: Source) {
    && v.Object? && v.members.Keys <= {"name", "version", "instance"}
    && Tells(v.members, "name", s.name) && TellsUnlessEmpty(v.members, "version", s.version)
    && TellsUnlessEmpty(v.members, "instance", s.instance)
  }

  ghost predicate SubjectTold(v: Json, s: Subject) {
    v.Object? && v.members.Keys <= {"type", "id"} && Tells(v.members, "type", s.kind) && Tells(v.members, "id", s.id)
  }

  ghost predicate ContextTold(v: Json, c: Header.Context) {
    && v.Object? && v.members.Keys <= {"decision_id", "run_id", "correlation_id", "parent_id"}
    && TellsUnlessEmpty(v.members, "decision_id", c.decision) && TellsUnlessEmpty(v.members, "run_id", c.run)
    && TellsUnlessEmpty(v.members, "correlation_id", c.correlation) && TellsUnlessEmpty(v.members, "parent_id", c.parent)
  }

  ghost predicate OrderingTold(v: Json, sequence: int, partition: string) {
    && v.Object? && v.members.Keys <= {"sequence", "partition"} && TellsUnlessEmpty(v.members, "partition", partition)
    && (if sequence == 0 then "sequence" !in v.members
        else "sequence" in v.members
             && v.members["sequence"] == Number(if sequence < 0 then "-" + Decimal(-sequence) else Decimal(sequence)))
  }

  lemma SourceIsTold(s: Source)
    ensures SourceTold(Decode(Write(StructKind(SOURCE), OfSource(s))), s)
  {
    hide Fold, WellNamed;
    InnerNames();
    var parts := OfSource(s).parts;
    StructMembers(SOURCE, parts);
    assert SOURCE[0].name == "name" && SOURCE[1].name == "version" && SOURCE[2].name == "instance";
    assert Decode(Write(SOURCE[0].kind, parts[0])) == String(s.name) && Decode(Write(SOURCE[1].kind, parts[1])) == String(s.version)
           && Decode(Write(SOURCE[2].kind, parts[2])) == String(s.instance);
  }

  lemma SubjectIsTold(s: Subject)
    ensures SubjectTold(Decode(Write(StructKind(SUBJECT), OfSubject(s))), s)
  {
    hide Fold, WellNamed;
    InnerNames();
    var parts := OfSubject(s).parts;
    StructMembers(SUBJECT, parts);
    assert SUBJECT[0].name == "type" && SUBJECT[1].name == "id";
    assert Decode(Write(SUBJECT[0].kind, parts[0])) == String(s.kind) && Decode(Write(SUBJECT[1].kind, parts[1])) == String(s.id);
  }

  lemma ContextIsTold(c: Header.Context)
    ensures ContextTold(Decode(Write(StructKind(CONTEXT), OfContext(c))), c)
  {
    hide Fold, WellNamed, Write, Shown, Tells;
    InnerNames();
    var parts := OfContext(c).parts;
    StructMembers(CONTEXT, parts);
    assert CONTEXT[0] == OptionalString("decision_id") && CONTEXT[1] == OptionalString("run_id")
           && CONTEXT[2] == OptionalString("correlation_id") && CONTEXT[3] == OptionalString("parent_id");
    var v := Decode(Write(StructKind(CONTEXT), OfContext(c)));
    OptionalTold(v.members, "decision_id", c.decision);
    OptionalTold(v.members, "run_id", c.run);
    OptionalTold(v.members, "correlation_id", c.correlation);
    OptionalTold(v.members, "parent_id", c.parent);
  }

  lemma OptionalTold(m: map<string, Json>, name: string, value: string)
    requires name in m <==> Shown(OptionalString(name), Str(value))
    requires Shown(OptionalString(name), Str(value)) ==> m[name] == Decode(Write(StringKind, Str(value)))
    ensures TellsUnlessEmpty(m, name, value)
  {
  }

  lemma OrderingIsTold(sequence: Int64, partition: string)
    ensures OrderingTold(Decode(Write(StructKind(ORDERING), OfOrdering(sequence, partition))), sequence, partition)
  {
    hide Fold, WellNamed, Decimal;
    InnerNames();
    var parts := OfOrdering(sequence, partition).parts;
    StructMembers(ORDERING, parts);
    assert ORDERING[0].name == "sequence" && ORDERING[1].name == "partition";
    assert Decode(Write(ORDERING[0].kind, parts[0])) == Number(Integer(sequence))
           && Decode(Write(ORDERING[1].kind, parts[1])) == String(partition);
  }

  /** Each entry of a map of raw messages is a member. */
  lemma {:induction false} EntriesAreTold(entries: map<string, Raw>)
    ensures EntriesTold(Decode(Write(MapKind, Entries(entries))), entries)
  {
    forall k ensures EntryTold(Decode(Write(MapKind, Entries(entries))), entries, k) {
      EntryIsTold(entries, k);
    }
    var v := Decode(Write(MapKind, Entries(entries)));
    assert EntryTold(v, entries, "");
    forall k ensures (k in v.members <==> k in entries) && (k in entries ==> v.members[k] == Decode(entries[k])) {
      assert EntryTold(v, entries, k);
    }
  }

  ghost predicate EntriesTold(v: Json, entries: map<string, Raw>) {
    v.Object? && forall k :: (k in v.members <==> k in entries) && (k in entries ==> v.members[k] == Decode(entries[k]))
  }

  ghost predicate EntryTold(v: Json, entries: map<string, Raw>, k: string) {
    v.Object? && (k in v.members <==> k in entries) && (k in entries ==> v.members[k] == Decode(entries[k]))
  }

  lemma {:induction false} EntryIsTold(entries: map<string, Raw>, k: string)
    ensures EntryTold(Decode(Write(MapKind, Entries(entries))), entries, k)
  {
    hide SortedMembers;
    var members := SortedMembers(entries);
    RawFieldsOfSorted(entries);
    LookupIsLast(members, k);
    RawFieldIsLast(members, k);
  }

  ghost predicate PlainTold(m: map<string, Json>, e: Event) {
    && Tells(m, "spec_version", e.specVersion) && Tells(m, "id", e.id) && Tells(m, "type", e.kind)
    && Tells(m, "time", Decimal(e.time)) && TellsUnlessEmpty(m, "idempotency_key", e.idempotencyKey)
    && "data" in m && m["data"] == (if e.data.Some? then Decode(e.data.value) else Null)
  }

  ghost predicate NestedTold(m: map<string, Json>, e: Event) {
    && "source" in m && SourceTold(m["source"], e.source) && "subject" in m && SubjectTold(m["subject"], e.subject)
    && "context" in m && ContextTold(m["context"], e.context)
    && "ordering" in m && OrderingTold(m["ordering"], e.sequence, e.partition)
    && (e.extensions == map[] ==> "extensions" !in m)
    && (e.extensions != map[] ==> "extensions" in m && EntriesTold(m["extensions"], e.extensions))
  }

  ghost const MEMBER_NAMES := {"spec_version", "id", "type", "source", "subject", "time", "context", "ordering", "idempotency_key",
                               "data", "extensions"}

  lemma EventMembers(e: Event)
    ensures var m, p := DecodeMembers(EventJson.Format(EVENT, ToWire(e))), Parts(e);
            && Decode(Marshal(e)) == Object(m)
            && (forall i | 0 <= i < 11 :: EVENT[i].name in m <==> Shown(EVENT[i], p[i]))
            && (forall i | 0 <= i < 11 && Shown(EVENT[i], p[i]) :: m[EVENT[i].name] == Decode(Write(EVENT[i].kind, p[i])))
            && (forall k | k !in MEMBER_NAMES :: k in m <==> k in e.unknown)
            && (forall k | k !in MEMBER_NAMES && k in e.unknown :: m[k] == Decode(e.unknown[k]))
  {
    hide WellNamed, EventJson.Format, Shown, Write, Parts;
    EventSchemaIsValid();
    MessageMembers(EVENT, ToWire(e));
    NamesAreThese();
  }

  lemma NamesAreThese()
    ensures EventJson.Names(EVENT) == MEMBER_NAMES && |EVENT| == 11
  {
    hide EventJson.Names;
    NamesInSet(EVENT);
    assert EVENT[0].name == "spec_version" && EVENT[1].name == "id" && EVENT[2].name == "type" && EVENT[3].name == "source"
           && EVENT[4].name == "subject" && EVENT[5].name == "time" && EVENT[6].name == "context" && EVENT[7].name == "ordering"
           && EVENT[8].name == "idempotency_key" && EVENT[9].name == "data" && EVENT[10].name == "extensions";
  }

  lemma NamesInSet(fields: seq<Field>)
    requires |fields| == 11
    ensures EventJson.Names(fields)
            == {fields[0].name, fields[1].name, fields[2].name, fields[3].name, fields[4].name, fields[5].name, fields[6].name,
                fields[7].name, fields[8].name, fields[9].name, fields[10].name}
  {
  }

  lemma PlainMembers(e: Event)
    ensures PlainTold(DecodeMembers(EventJson.Format(EVENT, ToWire(e))), e)
  {
    hide EventJson.Format, DecodeMembers, Decimal, OfSource, OfSubject, OfContext, OfOrdering, FitAll, Fits;
    EventMembers(e);
    var p := Parts(e);
    assert EVENT[0].name == "spec_version" && EVENT[1].name == "id" && EVENT[2].name == "type" && EVENT[5].name == "time";
    assert EVENT[8].name == "idempotency_key" && EVENT[9].name == "data";
    assert Shown(EVENT[0], p[0]) && Shown(EVENT[1], p[1]) && Shown(EVENT[2], p[2]) && Shown(EVENT[5], p[5]) && Shown(EVENT[9], p[9]);
    assert Shown(EVENT[8], p[8]) <==> e.idempotencyKey != "";
  }

  lemma NestedMembers(e: Event)
    ensures NestedTold(DecodeMembers(EventJson.Format(EVENT, ToWire(e))), e)
  {
    hide EventJson.Format, DecodeMembers, Write, Fits, FitAll, SourceTold, SubjectTold, ContextTold, OrderingTold, EntriesTold;
    EventMembers(e);
    SourceIsTold(e.source);
    SubjectIsTold(e.subject);
    ContextIsTold(e.context);
    OrderingIsTold(e.sequence, e.partition);
    var p := Parts(e);
    assert EVENT[3].name == "source" && EVENT[4].name == "subject" && EVENT[6].name == "context" && EVENT[7].name == "ordering"
           && EVENT[10].name == "extensions";
    assert Shown(EVENT[3], p[3]) && Shown(EVENT[4], p[4]) && Shown(EVENT[6], p[6]) && Shown(EVENT[7], p[7]);
    assert Shown(EVENT[10], p[10]) <==> e.extensions != map[];
    EntriesAreTold(e.extensions);
  }

  /** The JSON value of an event: its fields under these names, empty optional ones left out,
      and its unknown members under theirs. */
  lemma EventIsTold(e: Event)
    ensures var v := Decode(Marshal(e));
            && v.Object? && PlainTold(v.members, e) && NestedTold(v.members, e)
            && (forall k | k !in MEMBER_NAMES :: k in v.members <==> k in e.unknown)
            && (forall k | k !in MEMBER_NAMES && k in e.unknown :: v.members[k] == Decode(e.unknown[k]))
  {
    hide PlainTold, NestedTold, DecodeMembers, EventJson.Format, Write, Shown, Parts;
    EventMembers(e);
    PlainMembers(e);
    NestedMembers(e);
  }
}
