/** The custom JSON codec of a protocol message: a struct plus every unknown member, kept
    verbatim (`UnmarshalJSON` / `MarshalJSON` in api/go/event_json.go). It is written for
    any struct; `Protocol` instantiates it for events. */
module EventJson {
  import opened Text
  import opened Json
  import opened StructJson

  /** A decoded message: one value per struct field, and the unknown members. */
  datatype Wire = Wire(parts: seq<Value>, unknown: map<string, Raw>)

  function Names(fields: seq<Field>): set<string> {
    set i | 0 <= i < |fields| :: fields[i].name
  }

  // ---- Decoding

  function Parse(fields: seq<Field>, members: seq<Member>): (w: Option<Wire>)
    ensures w.Some? ==> FitAll(fields, w.value.parts)
  {
    match ReadMembers(fields, Zeros(fields), members)
    case None => None
    case Some(parts) => Some(Wire(parts, RawFields(members) - Names(fields)))
  }

  method UnmarshalJSON(fields: seq<Field>, members: seq<Member>) returns (w: Option<Wire>)
    ensures w == Parse(fields, members)
  {
    var parts := ReadMembers(fields, Zeros(fields), members);
    if parts.None? {
      return None;
    }
    var raw := RawFields(members);
    var names := Names(fields);
    var unknown: map<string, Raw> := map[];
    var todo := raw.Keys;
    while todo != {}
      invariant todo <= raw.Keys
      invariant unknown == map k | k in raw && k !in todo && k !in names :: raw[k]
    {
      var key :| key in todo;
      if key !in names {
        unknown := unknown[key := raw[key]];
      }
      todo := todo - {key};
    }
    assert unknown == raw - names;
    w := Some(Wire(parts.value, unknown));
  }

  // ---- Encoding

  /** Everything an encoded message holds: no unknown member replaces a field's own. */
  function AllFields(fields: seq<Field>, w: Wire): map<string, Raw>
    requires FitAll(fields, w.parts)
  {
    RawFields(WriteFields(fields, w.parts)) + (w.unknown - Names(fields))
  }

  function Format(fields: seq<Field>, w: Wire): seq<Member>
    requires FitAll(fields, w.parts)
  {
    if w.unknown == map[] then WriteFields(fields, w.parts) else SortedMembers(AllFields(fields, w))
  }

  method MarshalJSON(fields: seq<Field>, w: Wire) returns (members: seq<Member>)
    requires FitAll(fields, w.parts)
    ensures members == Format(fields, w)
  {
    var data := WriteFields(fields, w.parts);
    if w.unknown == map[] {
      return data;
    }
    var all := AddUnknown(Names(fields), RawFields(data), w.unknown);
    assert all == AllFields(fields, w);
    members := SortedMembers(all);
  }

  /** The loop of `MarshalJSON`. */
  method AddUnknown(names: set<string>, data: map<string, Raw>, unknown: map<string, Raw>) returns (all: map<string, Raw>)
    ensures all == data + (unknown - names)
  {
    all := data;
    var todo := unknown.Keys;
    while todo != {}
      invariant todo <= unknown.Keys
      invariant all == data + map k | k in unknown && k !in todo && k !in names :: unknown[k]
    {
      var key :| key in todo;
      if key !in names {
        all := all[key := unknown[key]];
      }
      todo := todo - {key};
    }
  }

  lemma {:induction false} OnlyNamesWritten(fields: seq<Field>, parts: seq<Value>)
    requires FitAll(fields, parts)
    ensures RawFields(WriteFields(fields, parts)).Keys <= Names(fields)
  {
    var members := WriteFields(fields, parts);
    forall key | key in RawFields(members) ensures key in Names(fields) {
      RawFieldIsLast(members, key);
      WrittenMembers(fields, parts, members[LastWith(members, key).value]);
    }
  }

  /** The struct's encoding lists each shown field once, under its name. */
  lemma {:induction false} FieldsWritten(fields: seq<Field>, parts: seq<Value>, i: nat)
    requires WellNamed(fields) && FitAll(fields, parts) && i < |fields|
    ensures var data := RawFields(WriteFields(fields, parts));
            && (fields[i].name in data <==> Shown(fields[i], parts[i]))
            && (Shown(fields[i], parts[i]) ==> data[fields[i].name] == Write(fields[i].kind, parts[i]))
  {
    var members := WriteFields(fields, parts);
    RawFieldIsLast(members, fields[i].name);
    WrittenMembers(fields, parts, Member(fields[i].name, Write(fields[i].kind, parts[i])));
    if LastWith(members, fields[i].name).Some? {
      WrittenMembers(fields, parts, members[LastWith(members, fields[i].name).value]);
    }
  }

  /** An encoded message holds exactly the shown fields, each with its own value, and every
      unknown member that is not named like a field. */
  lemma {:induction false} EncodedHoldsEverything(fields: seq<Field>, w: Wire)
    requires WellNamed(fields) && FitAll(fields, w.parts)
    ensures RawFields(Format(fields, w)) == AllFields(fields, w)
    ensures forall i | 0 <= i < |fields| ::
              && (fields[i].name in AllFields(fields, w) <==> Shown(fields[i], w.parts[i]))
              && (Shown(fields[i], w.parts[i]) ==>
                    AllFields(fields, w)[fields[i].name] == Write(fields[i].kind, w.parts[i]))
    ensures forall k | k !in Names(fields) :: k in AllFields(fields, w) <==> k in w.unknown
    ensures forall k | k in w.unknown && k !in Names(fields) :: AllFields(fields, w)[k] == w.unknown[k]
  {
    forall i | 0 <= i < |fields|
      ensures fields[i].name in AllFields(fields, w) <==> Shown(fields[i], w.parts[i])
      ensures Shown(fields[i], w.parts[i]) ==> AllFields(fields, w)[fields[i].name] == Write(fields[i].kind, w.parts[i])
    {
      FieldsWritten(fields, w.parts, i);
      assert fields[i].name in Names(fields);
    }
    OnlyNamesWritten(fields, w.parts);
    if w.unknown == map[] {
      assert AllFields(fields, w) == RawFields(WriteFields(fields, w.parts));
    } else {
      RawFieldsOfSorted(AllFields(fields, w));
    }
  }

  /** Decoding the members of an encoded message to generic values finds what it holds. */
  lemma {:induction false} EncodedDecodes(fields: seq<Field>, w: Wire, key: string)
    requires WellNamed(fields) && FitAll(fields, w.parts)
    ensures key in DecodeMembers(Format(fields, w)) <==> key in AllFields(fields, w)
    ensures key in AllFields(fields, w) ==> DecodeMembers(Format(fields, w))[key] == Decode(AllFields(fields, w)[key])
  {
    LookupIsLast(Format(fields, w), key);
    RawFieldIsLast(Format(fields, w), key);
    EncodedHoldsEverything(fields, w);
  }

  /** Messages that decode alike have the same unknown members, by value. */
  lemma {:induction false} DecodedAlikeUnknownAlike(fields: seq<Field>, v: Wire, w: Wire, key: string)
    requires WellNamed(fields) && FitAll(fields, v.parts) && FitAll(fields, w.parts) && key !in Names(fields)
    requires DecodeMembers(Format(fields, v)) == DecodeMembers(Format(fields, w))
    ensures key in v.unknown <==> key in w.unknown
    ensures key in v.unknown && key in w.unknown ==> Decode(v.unknown[key]) == Decode(w.unknown[key])
  {
    hide AllFields, Format;
    EncodedDecodes(fields, v, key);
    EncodedDecodes(fields, w, key);
    EncodedHoldsEverything(fields, v);
    EncodedHoldsEverything(fields, w);
  }

  /** Decode then encode keeps every unknown member and its last value. */
  lemma {:induction false} UnknownMembersSurvive(fields: seq<Field>, members: seq<Member>, key: string)
    requires WellNamed(fields) && Parse(fields, members).Some? && key !in Names(fields)
    ensures var again := RawFields(Format(fields, Parse(fields, members).value));
            && (key in again <==> LastWith(members, key).Some?)
            && (LastWith(members, key).Some? ==> again[key] == members[LastWith(members, key).value].value)
  {
    EncodedHoldsEverything(fields, Parse(fields, members).value);
    RawFieldIsLast(members, key);
  }

  // ---- Lists sorted by key

  ghost predicate Sorted(members: seq<Member>) {
    forall i, j | 0 <= i < j < |members| :: Precedes(members[i].key, members[j].key)
  }

  lemma {:induction false} SortedMembersAre(fields: map<string, Raw>)
    ensures Sorted(SortedMembers(fields))
    ensures forall m: Member :: m in SortedMembers(fields) <==> m.key in fields && fields[m.key] == m.value
  {
    var members := SortedMembers(fields);
    forall m: Member | m.key in fields && fields[m.key] == m.value ensures m in members {
      var i :| 0 <= i < |members| && SortedKeys(fields.Keys)[i] == m.key;
      assert members[i] == m;
    }
  }

  /** Members and keys determine a sorted list. */
  lemma {:induction false} SortedIsUnique(a: seq<Member>, b: seq<Member>)
    requires Sorted(a) && Sorted(b) && forall m: Member :: m in a <==> m in b
    ensures a == b
  {
    if a != [] {
      assert a[0] in b;
      var x, y := a[|a| - 1], b[|b| - 1];
      assert x in b && y in a;
      if x != y {
        PrecedesIsLinear(x.key, y.key);
      }
      var c, d := a[..|a| - 1], b[..|b| - 1];
      forall m: Member ensures m in c <==> m in d {
        FrontOfSorted(a, m);
        FrontOfSorted(b, m);
      }
      SortedIsUnique(c, d);
    } else {
      NoMembersMeansEmpty(b);
    }
  }

  lemma {:induction false} FrontOfSorted(a: seq<Member>, m: Member)
    requires Sorted(a) && a != []
    ensures m in a[..|a| - 1] <==> m in a && m != a[|a| - 1]
  {
    assert a == a[..|a| - 1] + [a[|a| - 1]];
    if m in a[..|a| - 1] {
      PrecedesIsLinear(m.key, m.key);
    }
  }

  lemma {:induction false} ChosenIsSorted(members: seq<Member>, name: string)
    requires Sorted(members)
    ensures Sorted(Chosen(members, name))
  {
    if members != [] {
      var front, last := members[..|members| - 1], members[|members| - 1];
      ChosenIsSorted(front, name);
      forall m: Member | m in Chosen(front, name) ensures Precedes(m.key, last.key) {
        ChosenAreMembers(front, name, m);
      }
    }
  }

  // ---- What a field is told by an encoded message

  /** The unknown members that are read into a field before, or after, its own. */
  function Variants(unknown: map<string, Raw>, name: string, earlier: bool): map<string, Raw> {
    map k | k in unknown && Fold(k) == name && (if earlier then Precedes(k, name) else Precedes(name, k)) :: unknown[k]
  }

  function Before(w: Wire, name: string): seq<Raw> {
    Values(SortedMembers(Variants(w.unknown, name, true)))
  }

  function After(w: Wire, name: string): seq<Raw> {
    Values(SortedMembers(Variants(w.unknown, name, false)))
  }

  lemma {:induction false} SortedAround(a: seq<Member>, m: seq<Member>, b: seq<Member>, name: string)
    requires Sorted(a) && Sorted(b) && |m| <= 1 && forall x: Member | x in m :: x.key == name
    requires (forall x | x in a :: Precedes(x.key, name)) && forall x | x in b :: Precedes(name, x.key)
    ensures Sorted(a + m + b)
  {
    var all := a + m + b;
    forall i, j | 0 <= i < j < |all| ensures Precedes(all[i].key, all[j].key) {
      if i < |a| && j >= |a| + |m| {
        PrecedesIsTransitive(all[i].key, name, all[j].key);
      }
      assert j < |a| ==> all[j] in a;
    }
  }

  lemma {:induction false} FormatTells(fields: seq<Field>, w: Wire, i: nat)
    requires WellNamed(fields) && FitAll(fields, w.parts) && i < |fields|
    ensures ValuesOf(Format(fields, w), fields[i].name)
            == Before(w, fields[i].name) + Own(fields[i], w.parts[i]) + After(w, fields[i].name)
  {
    var name := fields[i].name;
    if w.unknown == map[] {
      WrittenValues(fields, w.parts, i);
      NoVariants(w, name);
    } else {
      SortedTells(fields, w, i);
    }
  }

  lemma {:induction false} NoVariants(w: Wire, name: string)
    requires forall k | k in w.unknown :: Fold(k) != name
    ensures Before(w, name) == [] && After(w, name) == []
  {
    assert Variants(w.unknown, name, true) == map[] && Variants(w.unknown, name, false) == map[];
  }

  lemma {:induction false} SortedTells(fields: seq<Field>, w: Wire, i: nat)
    requires WellNamed(fields) && FitAll(fields, w.parts) && i < |fields|
    ensures ValuesOf(SortedMembers(AllFields(fields, w)), fields[i].name)
            == Before(w, fields[i].name) + Own(fields[i], w.parts[i]) + After(w, fields[i].name)
  {
    hide AllFields, Chosen, SortedMembers, Write, Fits;
    var name := fields[i].name;
    var before, after := SortedMembers(Variants(w.unknown, name, true)), SortedMembers(Variants(w.unknown, name, false));
    var own := if Shown(fields[i], w.parts[i]) then [Member(name, Write(fields[i].kind, w.parts[i]))] else [];
    ChosenFromSorted(fields, w, i);
    assert Values(before + own + after) == Values(before) + Values(own) + Values(after);
    assert Values(own) == Own(fields[i], w.parts[i]);
  }

  lemma {:induction false} ChosenFromSorted(fields: seq<Field>, w: Wire, i: nat)
    requires WellNamed(fields) && FitAll(fields, w.parts) && i < |fields|
    ensures var name := fields[i].name;
            Chosen(SortedMembers(AllFields(fields, w)), name)
            == SortedMembers(Variants(w.unknown, name, true))
               + (if Shown(fields[i], w.parts[i]) then [Member(name, Write(fields[i].kind, w.parts[i]))] else [])
               + SortedMembers(Variants(w.unknown, name, false))
  {
    hide AllFields, Chosen, SortedMembers, Write, Fits;
    var name, all := fields[i].name, AllFields(fields, w);
    var before, after := SortedMembers(Variants(w.unknown, name, true)), SortedMembers(Variants(w.unknown, name, false));
    var own := if Shown(fields[i], w.parts[i]) then [Member(name, Write(fields[i].kind, w.parts[i]))] else [];
    SortedMembersAre(all);
    SortedMembersAre(Variants(w.unknown, name, true));
    SortedMembersAre(Variants(w.unknown, name, false));
    ChosenIsSorted(SortedMembers(all), name);
    SortedAround(before, own, after, name);
    forall m: Member ensures m in Chosen(SortedMembers(all), name) <==> m in before + own + after {
      ChosenAreMembers(SortedMembers(all), name, m);
      MemberOfField(fields, w, i, m);
    }
    SortedIsUnique(Chosen(SortedMembers(all), name), before + own + after);
  }

  /** The encoded members that fold to a field's name. */
  lemma {:induction false} MemberOfField(fields: seq<Field>, w: Wire, i: nat, m: Member)
    requires WellNamed(fields) && FitAll(fields, w.parts) && i < |fields|
    ensures var name, all := fields[i].name, AllFields(fields, w);
            && m.key in all && all[m.key] == m.value && Fold(m.key) == name
            <==> || (m.key in Variants(w.unknown, name, true) && w.unknown[m.key] == m.value)
                 || (Shown(fields[i], w.parts[i]) && m == Member(name, Write(fields[i].kind, w.parts[i])))
                 || (m.key in Variants(w.unknown, name, false) && w.unknown[m.key] == m.value)
  {
    hide AllFields;
    var name := fields[i].name;
    EncodedHoldsEverything(fields, w);
    PrecedesIsLinear(m.key, name);
    if m.key in Names(fields) && Fold(m.key) == name {
      var j :| 0 <= j < |fields| && fields[j].name == m.key;
      assert Fold(fields[j].name) == fields[j].name;
    }
    assert name in Names(fields);
  }

  // ---- The round trip

  /** The variants of a field's name are of its type and disturb it in nothing. */
  ghost predicate QuietPart(field: Field, part: Value, before: seq<Raw>, after: seq<Raw>)
    requires Fits(field.kind, part)
  {
    && AllTyped(field.kind, before) && AllTyped(field.kind, after)
    && Undisturbed(field.kind, before, Own(field, part), after)
  }

  ghost predicate Quiet(fields: seq<Field>, w: Wire)
    requires FitAll(fields, w.parts)
  {
    forall i | 0 <= i < |fields| :: QuietPart(fields[i], w.parts[i], Before(w, fields[i].name), After(w, fields[i].name))
  }

  /** Each field is what its own members make of it. */
  lemma {:induction false} PartRead(fields: seq<Field>, members: seq<Member>, i: nat)
    requires WellNamed(fields) && i < |fields| && Parse(fields, members).Some?
    ensures ReadAll(fields[i].kind, Zero(fields[i].kind), ValuesOf(members, fields[i].name)) == Some(Parse(fields, members).value.parts[i])
  {
    ReadMembersEach(fields, Zeros(fields), members, i);
  }

  /** A field is read back exactly when its variants are quiet. */
  lemma {:induction false} PartComesBack(fields: seq<Field>, w: Wire, i: nat)
    requires WellNamed(fields) && Plain(StructKind(fields)) && FitAll(fields, w.parts) && i < |fields|
    requires SolidPart(fields[i], w.parts[i])
    ensures var kind := fields[i].kind;
            var told := ValuesOf(Format(fields, w), fields[i].name);
            AllTyped(kind, told) && ReadAll(kind, Zero(kind), told) == Some(w.parts[i])
            <==> QuietPart(fields[i], w.parts[i], Before(w, fields[i].name), After(w, fields[i].name))
  {
    hide Read, Typed, Undisturbed, Format, Own;
    var kind, before, after := fields[i].kind, Before(w, fields[i].name), After(w, fields[i].name);
    FormatTells(fields, w, i);
    OwnReads(fields[i], w.parts[i]);
    if AllTyped(kind, before) && AllTyped(kind, after) {
      UndisturbedExactly(kind, before, Own(fields[i], w.parts[i]), after);
    } else {
      var raw :| raw in before + after && !Typed(kind, raw);
      assert raw in before + Own(fields[i], w.parts[i]) + after;
    }
  }

  /** Decoding undoes encoding exactly when no unknown member is named like a field and the
      variants of every field are quiet. */
  lemma {:induction false} DecodeUndoesEncode(fields: seq<Field>, w: Wire)
    requires WellNamed(fields) && Plain(StructKind(fields)) && FitAll(fields, w.parts)
    requires forall i | 0 <= i < |fields| :: SolidPart(fields[i], w.parts[i])
    ensures Parse(fields, Format(fields, w)) == Some(w) <==> w.unknown.Keys !! Names(fields) && Quiet(fields, w)
  {
    PartsComeBack(fields, w);
    if Parse(fields, Format(fields, w)).Some? {
      UnknownComesBack(fields, w);
    }
  }

  lemma {:induction false} PartsComeBack(fields: seq<Field>, w: Wire)
    requires WellNamed(fields) && Plain(StructKind(fields)) && FitAll(fields, w.parts)
    requires forall i | 0 <= i < |fields| :: SolidPart(fields[i], w.parts[i])
    ensures var back := Parse(fields, Format(fields, w)); back.Some? && back.value.parts == w.parts <==> Quiet(fields, w)
  {
    hide Format, SolidPart, QuietPart, Before, After, ReadAll, ReadMembers, AllTyped, ValuesOf, WellNamed, Fits, Plain;
    var members, back := Format(fields, w), Parse(fields, Format(fields, w));
    ReadsWhenTyped(fields, Zeros(fields), members);
    forall i | 0 <= i < |fields|
      ensures QuietPart(fields[i], w.parts[i], Before(w, fields[i].name), After(w, fields[i].name))
              ==> AllTyped(fields[i].kind, ValuesOf(members, fields[i].name))
      ensures back.Some? ==> (QuietPart(fields[i], w.parts[i], Before(w, fields[i].name), After(w, fields[i].name))
                              <==> back.value.parts[i] == w.parts[i])
    {
      PartComesBack(fields, w, i);
      if back.Some? {
        PartRead(fields, members, i);
      }
    }
  }

  lemma {:induction false} UnknownComesBack(fields: seq<Field>, w: Wire)
    requires WellNamed(fields) && FitAll(fields, w.parts) && Parse(fields, Format(fields, w)).Some?
    ensures Parse(fields, Format(fields, w)).value.unknown == w.unknown <==> w.unknown.Keys !! Names(fields)
  {
    hide Format, Names, WellNamed, FitAll, ReadMembers, RawFields, WriteFields;
    EncodedHoldsEverything(fields, w);
    OnlyNamesWritten(fields, w.parts);
    RestOfAll(RawFields(WriteFields(fields, w.parts)), w.unknown, Names(fields));
  }

  lemma RestOfAll(data: map<string, Raw>, unknown: map<string, Raw>, names: set<string>)
    requires data.Keys <= names
    ensures data + (unknown - names) - names == unknown <==> unknown.Keys !! names
  {
    var rest := data + (unknown - names) - names;
    assert rest == unknown - names;
    assert unknown.Keys !! names ==> rest == unknown;
    assert rest.Keys !! names;
  }

  /** A nil message that is written anyway comes back as some message. */
  lemma {:induction false} NilMessageIsLost(fields: seq<Field>, w: Wire, i: nat)
    requires WellNamed(fields) && FitAll(fields, w.parts) && i < |fields| && Parse(fields, Format(fields, w)).Some?
    requires fields[i].kind.RawKind? && !fields[i].optional && w.parts[i] == Message(None)
    ensures Parse(fields, Format(fields, w)).value != w
  {
    hide Format, Parse;
    var before, after := Before(w, fields[i].name), After(w, fields[i].name);
    FormatTells(fields, w, i);
    PartRead(fields, Format(fields, w), i);
    MessageReads(Message(None), before + Own(fields[i], w.parts[i]) + after);
    assert |Own(fields[i], w.parts[i])| == 1;
  }

  /** A field holds what its own member says exactly when the variants of its name around
      that member are quiet. */
  lemma {:induction false} StandardFieldKeepsItsMember(fields: seq<Field>, members: seq<Member>, i: nat, at: nat)
    requires WellNamed(fields) && Plain(StructKind(fields)) && i < |fields| && Parse(fields, members).Some?
    requires at < |members| && members[at].key == fields[i].name
    ensures var kind, name, own := fields[i].kind, fields[i].name, members[at].value;
            Read(kind, Zero(kind), own) == Some(Parse(fields, members).value.parts[i])
            <==> Undisturbed(kind, ValuesOf(members[..at], name), [own], ValuesOf(members[at + 1..], name))
  {
    hide Read, Typed, Undisturbed;
    var kind, name, own := fields[i].kind, fields[i].name, members[at].value;
    var before, after := ValuesOf(members[..at], name), ValuesOf(members[at + 1..], name);
    TellsAround(members, name, at);
    ReadsWhenTyped(fields, Zeros(fields), members);
    PartRead(fields, members, i);
    UndisturbedExactly(kind, before, [own], after);
    ReadAllOneMore(kind, Zero(kind), [], own);
    assert [] + [own] == [own];
  }

  /** Of a text field's own member and a later variant the second is read. */
  lemma {:induction false} LaterVariantWins(fields: seq<Field>, i: nat, variant: string, own: string, other: string)
    requires WellNamed(fields) && i < |fields| && fields[i].kind.StringKind?
    requires variant != fields[i].name && Fold(variant) == fields[i].name
    ensures Parse(fields, [Member(fields[i].name, RString(own)), Member(variant, RString(other))])
            == Some(Wire(Zeros(fields)[i := Str(other)], map[variant := RString(other)]))
  {
    var name := fields[i].name;
    var first, members := [Member(name, RString(own))], [Member(name, RString(own)), Member(variant, RString(other))];
    assert members[..1] == first && first[..0] == [];
    FieldForIs(fields, name, i);
    FieldForIs(fields, variant, i);
    assert ReadMembers(fields, Zeros(fields), first) == Some(Zeros(fields)[i := Str(own)]);
    assert Zeros(fields)[i := Str(own)][i := Str(other)] == Zeros(fields)[i := Str(other)];
    assert ReadMembers(fields, Zeros(fields), members) == Some(Zeros(fields)[i := Str(other)]);
    assert RawFields(first) == map[name := RString(own)];
    assert RawFields(members) == map[name := RString(own), variant := RString(other)];
    assert variant !in Names(fields) && name in Names(fields);
    assert RawFields(members) - Names(fields) == map[variant := RString(other)];
  }

  /** When all unknown members spell one field's name, only that field is read differently. */
  lemma {:induction false} VariantsOfOneField(fields: seq<Field>, w: Wire, i: nat, value: Value)
    requires WellNamed(fields) && FitAll(fields, w.parts) && i < |fields|
    requires forall j | 0 <= j < |fields| && j != i :: SolidPart(fields[j], w.parts[j])
    requires forall k | k in w.unknown :: k !in Names(fields) && Fold(k) == fields[i].name
    requires var name := fields[i].name;
             ReadAll(fields[i].kind, Zero(fields[i].kind), Before(w, name) + Own(fields[i], w.parts[i]) + After(w, name)) == Some(value)
    ensures Parse(fields, Format(fields, w)) == Some(Wire(w.parts[i := value], w.unknown))
  {
    hide Format, Names, Read, ReadAll, SolidPart, Own, Before, After;
    var parts := w.parts[i := value];
    forall j | 0 <= j < |fields| ensures FieldReads(fields[j], Zero(fields[j].kind), Format(fields, w), parts[j]) {
      FormatTells(fields, w, j);
      if j != i {
        NoVariants(w, fields[j].name);
        OwnReads(fields[j], w.parts[j]);
        assert [] + Own(fields[j], w.parts[j]) + [] == Own(fields[j], w.parts[j]);
      }
    }
    FieldsFixTheStruct(fields, Format(fields, w), parts);
    UnknownComesBack(fields, w);
  }

  lemma {:induction false} OneBefore(w: Wire, key: string)
    requires w.unknown.Keys == {key} && Precedes(key, Fold(key))
    ensures Before(w, Fold(key)) == [w.unknown[key]] && After(w, Fold(key)) == []
  {
    PrecedesIsLinear(key, Fold(key));
    assert Variants(w.unknown, Fold(key), true) == w.unknown && Variants(w.unknown, Fold(key), false) == map[];
    assert SortedKeys({key})[0] == key;
  }

  lemma {:induction false} TwoBefore(w: Wire, first: string, second: string)
    requires w.unknown.Keys == {first, second} && Fold(first) == Fold(second)
    requires Precedes(first, second) && Precedes(second, Fold(second))
    ensures Before(w, Fold(first)) == [w.unknown[first], w.unknown[second]] && After(w, Fold(first)) == []
  {
    hide Fold, Precedes, SortedKeys;
    PrecedesIsTransitive(first, second, Fold(second));
    PrecedesIsLinear(first, Fold(first));
    PrecedesIsLinear(second, Fold(first));
    assert Variants(w.unknown, Fold(first), true) == w.unknown && Variants(w.unknown, Fold(first), false) == map[];
    PairSorted(first, second);
    assert SortedKeys(w.unknown.Keys) == [first, second];
  }

  lemma {:induction false} PairSorted(first: string, second: string)
    requires Precedes(first, second)
    ensures SortedKeys({first, second}) == [first, second]
  {
    hide Precedes;
    PrecedesIsLinear(first, second);
    var keys := SortedKeys({first, second});
    assert |keys| == 2 && keys[0] in {first, second} && keys[1] in {first, second};
  }
}
