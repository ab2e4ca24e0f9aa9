/** How `encoding/json` reads and writes struct values, for the types of api/go/types.go.
    Reading folds over the members in order: names match up to letter case, later members
    are merged into what earlier ones left, and null leaves most fields alone. */
module StructJson {
  import opened Text
  import opened Json

  /** Field types: string, time.Time, int64, json.RawMessage, a map of raw messages,
      []string, and a struct. */
  datatype Kind = StringKind | TimeKind | IntKind | RawKind | MapKind | ListKind | StructKind(fields: seq<Field>)

  /** A struct tag; `optional` is `omitempty`. */
  datatype Field = Field(name: string, kind: Kind, optional: bool)

  function StringField(name: string): Field { Field(name, StringKind, false) }
  function OptionalString(name: string): Field { Field(name, StringKind, true) }

  /** Values of these types. A nil map is an empty one; `items` is None for a nil slice, and
      `spare` is what its array holds behind the slice's length. */
  datatype Value =
    | Str(s: string)
    | Time(t: nat)
    | Int(n: int)
    | Message(raw: Option<Raw>)
    | Entries(entries: map<string, Raw>)
    | List(items: Option<seq<string>>, spare: seq<string>)
    | Record(parts: seq<Value>)

  predicate InInt64(n: int) { -0x8000_0000_0000_0000 <= n < 0x8000_0000_0000_0000 }

  type Int64 = n: int | InInt64(n)

  /** The value has the type. */
  predicate Fits(kind: Kind, value: Value) {
    match kind
    case StringKind => value.Str?
    case TimeKind => value.Time?
    case IntKind => value.Int? && InInt64(value.n)
    case RawKind => value.Message?
    case MapKind => value.Entries?
    case ListKind => value.List?
    case StructKind(fields) => value.Record? && FitAll(fields, value.parts)
  }

  predicate FitAll(fields: seq<Field>, parts: seq<Value>) {
    |parts| == |fields| && forall i | 0 <= i < |fields| :: Fits(fields[i].kind, parts[i])
  }

  function Zero(kind: Kind): (value: Value)
    ensures Fits(kind, value)
  {
    match kind
    case StringKind => Str("")
    case TimeKind => Time(0)
    case IntKind => Int(0)
    case RawKind => Message(None)
    case MapKind => Entries(map[])
    case ListKind => List(None, [])
    case StructKind(fields) => Record(Zeros(fields))
  }

  function Zeros(fields: seq<Field>): (parts: seq<Value>)
    ensures FitAll(fields, parts) && forall i | 0 <= i < |fields| :: parts[i] == Zero(fields[i].kind)
  {
    seq(|fields|, i requires 0 <= i < |fields| => Zero(fields[i].kind))
  }

  // ---- Names

  /** The letters Go's decoder takes for another one: capitals, the long s, the Kelvin sign. */
  function FoldChar(c: char): char {
    if 'A' <= c <= 'Z' then c - 'A' + 'a'
    else if c == '\U{17F}' then 's'
    else if c == '\U{212A}' then 'k'
    else c
  }

  function Fold(s: string): (folded: string)
    ensures |folded| == |s| && forall i | 0 <= i < |s| :: folded[i] == FoldChar(s[i])
  {
    seq(|s|, i requires 0 <= i < |s| => FoldChar(s[i]))
  }

  lemma FoldsExactly(c: char)
    ensures 65 <= c as int <= 90 ==> FoldChar(c) as int == c as int + 32
    ensures c as int == 0x17F ==> FoldChar(c) == 's'
    ensures c as int == 0x212A ==> FoldChar(c) == 'k'
    ensures !(65 <= c as int <= 90) && c as int != 0x17F && c as int != 0x212A ==> FoldChar(c) == c
  {
  }

  lemma NoCapitals(s: string)
    requires forall i | 0 <= i < |s| :: s[i] == '_' || 'a' <= s[i] <= 'z'
    ensures Fold(s) == s
  {
  }

  lemma UpperCase(key: string, name: string)
    requires |key| == |name| && forall i | 0 <= i < |key| :: FoldChar(key[i]) == name[i]
    ensures Fold(key) == name
  {
  }

  /** Names of one struct are lower-case and differ, at any depth. */
  ghost predicate WellNamed(fields: seq<Field>) {
    && (forall i, j | 0 <= i < j < |fields| :: fields[i].name != fields[j].name)
    && (forall i | 0 <= i < |fields| :: Fold(fields[i].name) == fields[i].name && WellNamedKind(fields[i].kind))
  }

  ghost predicate WellNamedKind(kind: Kind) {
    kind.StructKind? ==> WellNamed(kind.fields)
  }

  function FieldFor(fields: seq<Field>, key: string): (at: Option<nat>)
    ensures at.Some? ==> at.value < |fields| && fields[at.value].name == Fold(key)
    ensures at.None? ==> forall i | 0 <= i < |fields| :: fields[i].name != Fold(key)
  {
    if |fields| == 0 then None
    else
      var last: nat := |fields| - 1;
      if fields[last].name == Fold(key) then Some(last) else FieldFor(fields[..last], key)
  }

  lemma {:induction false} FieldForIs(fields: seq<Field>, key: string, i: nat)
    requires WellNamed(fields) && i < |fields|
    ensures FieldFor(fields, key) == Some(i) <==> Fold(key) == fields[i].name
  {
  }

  // ---- Reading

  /** `strconv.ParseInt` on a JSON number. */
  function IntegerOf(spelling: string): Option<int> {
    var negative := spelling != "" && spelling[0] == '-';
    match DigitsValue(if negative then spelling[1..] else spelling)
    case None => None
    case Some(n) =>
      var value: int := if negative then 0 - n else n;
      if InInt64(value) then Some(value) else None
  }

  /** The entries of a decoded map of raw messages: exact keys, the last one counts. */
  function RawFields(members: seq<Member>): map<string, Raw> {
    if members == [] then map[]
    else
      var last := |members| - 1;
      RawFields(members[..last])[members[last].key := members[last].value]
  }

  lemma {:induction false} RawFieldIsLast(members: seq<Member>, key: string)
    ensures key in RawFields(members) <==> LastWith(members, key).Some?
    ensures key in RawFields(members) ==> RawFields(members)[key] == members[LastWith(members, key).value].value
  {
    if members != [] {
      RawFieldIsLast(members[..|members| - 1], key);
    }
  }

  /** One element of a slice: null leaves what the slice's array holds there. */
  function ItemOver(held: seq<string>, i: nat, item: Raw): string {
    if item.RString? then item.s else if i < |held| then held[i] else ""
  }

  function ReadList(held: seq<string>, items: seq<Raw>): Value {
    if items == [] then List(Some([]), [])
    else List(Some(seq(|items|, i requires 0 <= i < |items| => ItemOver(held, i, items[i]))),
              if |items| <= |held| then held[|items|..] else [])
  }

  function Held(list: Value): seq<string>
    requires list.List?
  {
    (if list.items.Some? then list.items.value else []) + list.spare
  }

  predicate IsItem(raw: Raw) { raw.RNull? || raw.RString? }

  /** A value other than null of a type that null leaves alone. */
  function Meaning(kind: Kind, raw: Raw): Option<Value> {
    match kind
    case StringKind => if raw.RString? then Some(Str(raw.s)) else None
    case TimeKind =>
      if raw.RString? && DigitsValue(raw.s).Some? then Some(Time(DigitsValue(raw.s).value)) else None
    case IntKind =>
      if raw.RNumber? && IntegerOf(raw.spelling).Some? then Some(Int(IntegerOf(raw.spelling).value)) else None
    case _ => None
  }

  /** Reading one value into a variable; None is a decoding error. */
  function Read(kind: Kind, current: Value, raw: Raw): (r: Option<Value>)
    requires Fits(kind, current)
    ensures r.Some? ==> Fits(kind, r.value)
    decreases raw
  {
    match kind
    case RawKind => Some(Message(Some(raw)))
    case MapKind =>
      if raw.RNull? then Some(Entries(map[]))
      else if raw.RObject? then Some(Entries(current.entries + RawFields(raw.members)))
      else None
    case ListKind =>
      if raw.RNull? then Some(List(None, []))
      else if raw.RArray? && forall item | item in raw.items :: IsItem(item) then Some(ReadList(Held(current), raw.items))
      else None
    case StructKind(fields) =>
      if raw.RNull? then Some(current)
      else if raw.RObject? then
        match ReadMembers(fields, current.parts, raw.members)
        case None => None
        case Some(parts) => Some(Record(parts))
      else None
    case _ => if raw.RNull? then Some(current) else Meaning(kind, raw)
  }

  /** The loop over an object's members; members without a field are skipped. */
  function ReadMembers(fields: seq<Field>, parts: seq<Value>, members: seq<Member>): (r: Option<seq<Value>>)
    requires FitAll(fields, parts)
    ensures r.Some? ==> FitAll(fields, r.value)
    decreases members
  {
    if members == [] then Some(parts)
    else
      var last := members[|members| - 1];
      match ReadMembers(fields, parts, members[..|members| - 1])
      case None => None
      case Some(front) =>
        match FieldFor(fields, last.key)
        case None => Some(front)
        case Some(i) =>
          match Read(fields[i].kind, front[i], last.value)
          case None => None
          case Some(part) => Some(front[i := part])
  }

  /** Reading several values into one variable. */
  function ReadAll(kind: Kind, start: Value, values: seq<Raw>): (r: Option<Value>)
    requires Fits(kind, start)
    ensures r.Some? ==> Fits(kind, r.value)
  {
    if values == [] then Some(start)
    else
      match ReadAll(kind, start, values[..|values| - 1])
      case None => None
      case Some(value) => Read(kind, value, values[|values| - 1])
  }

  /** What reading accepts, whatever the variable holds. */
  predicate Typed(kind: Kind, raw: Raw)
    decreases raw
  {
    match kind
    case RawKind => true
    case MapKind => raw.RNull? || raw.RObject?
    case ListKind => raw.RNull? || (raw.RArray? && forall item | item in raw.items :: IsItem(item))
    case StructKind(fields) => raw.RNull? || (raw.RObject? && forall m | m in raw.members :: TypedMember(fields, m))
    case _ => raw.RNull? || Meaning(kind, raw).Some?
  }

  predicate TypedMember(fields: seq<Field>, m: Member)
    decreases m
  {
    FieldFor(fields, m.key).Some? ==> Typed(fields[FieldFor(fields, m.key).value].kind, m.value)
  }

  ghost predicate AllTyped(kind: Kind, values: seq<Raw>) {
    forall raw | raw in values :: Typed(kind, raw)
  }

  lemma {:induction false} ReadAcceptsTyped(kind: Kind, current: Value, raw: Raw)
    requires Fits(kind, current)
    ensures Read(kind, current, raw).Some? <==> Typed(kind, raw)
    decreases raw
  {
    if kind.StructKind? && raw.RObject? {
      ReadMembersAcceptsTyped(kind.fields, current.parts, raw.members);
    }
  }

  lemma {:induction false} ReadMembersAcceptsTyped(fields: seq<Field>, parts: seq<Value>, members: seq<Member>)
    requires FitAll(fields, parts)
    ensures ReadMembers(fields, parts, members).Some? <==> forall m | m in members :: TypedMember(fields, m)
    decreases members
  {
    if members != [] {
      var front, last := members[..|members| - 1], members[|members| - 1];
      ReadMembersAcceptsTyped(fields, parts, front);
      assert forall m :: m in members <==> m in front || m == last by { assert members == front + [last]; }
      var read := ReadMembers(fields, parts, front);
      if read.Some? && FieldFor(fields, last.key).Some? {
        var i := FieldFor(fields, last.key).value;
        ReadAcceptsTyped(fields[i].kind, read.value[i], last.value);
        assert last in members && (TypedMember(fields, last) <==> Typed(fields[i].kind, last.value));
      }
    }
  }

  lemma {:induction false} ReadAllAcceptsTyped(kind: Kind, start: Value, values: seq<Raw>)
    requires Fits(kind, start)
    ensures ReadAll(kind, start, values).Some? <==> AllTyped(kind, values)
  {
    if values != [] {
      var front, last := values[..|values| - 1], values[|values| - 1];
      ReadAllAcceptsTyped(kind, start, front);
      assert values == front + [last];
      if ReadAll(kind, start, front).Some? {
        ReadAcceptsTyped(kind, ReadAll(kind, start, front).value, last);
      }
    }
  }

  // ---- Field by field

  /** The members that are read into the field of this name. */
  function Chosen(members: seq<Member>, name: string): seq<Member> {
    if members == [] then []
    else
      var last := |members| - 1;
      Chosen(members[..last], name) + if Fold(members[last].key) == name then [members[last]] else []
  }

  function Values(members: seq<Member>): (values: seq<Raw>)
    ensures |values| == |members|
  {
    seq(|members|, i requires 0 <= i < |members| => members[i].value)
  }

  function ValuesOf(members: seq<Member>, name: string): seq<Raw> {
    Values(Chosen(members, name))
  }

  lemma {:induction false} ChosenOfBoth(a: seq<Member>, b: seq<Member>, name: string)
    ensures Chosen(a + b, name) == Chosen(a, name) + Chosen(b, name)
    ensures ValuesOf(a + b, name) == ValuesOf(a, name) + ValuesOf(b, name)
  {
    if b == [] {
      assert a + b == a;
    } else {
      var front := b[..|b| - 1];
      ChosenOfBoth(a, front, name);
      assert (a + b)[..|a + b| - 1] == a + front;
    }
  }

  lemma {:induction false} ChosenAreMembers(members: seq<Member>, name: string, m: Member)
    ensures m in Chosen(members, name) <==> m in members && Fold(m.key) == name
  {
    if members != [] {
      var front, last := members[..|members| - 1], members[|members| - 1];
      ChosenAreMembers(front, name, m);
      assert members == front + [last];
    }
  }

  lemma {:induction false} ValuesOfOneMore(front: seq<Member>, last: Member, name: string)
    ensures ValuesOf(front + [last], name) == ValuesOf(front, name) + if Fold(last.key) == name then [last.value] else []
  {
    assert (front + [last])[..|front|] == front;
  }

  lemma {:induction false} TellsAround(members: seq<Member>, name: string, at: nat)
    requires at < |members| && Fold(members[at].key) == name
    ensures ValuesOf(members, name) == ValuesOf(members[..at], name) + [members[at].value] + ValuesOf(members[at + 1..], name)
  {
    var front := members[..at];
    ValuesOfOneMore(front, members[at], name);
    ChosenOfBoth(front + [members[at]], members[at + 1..], name);
    assert front + [members[at]] + members[at + 1..] == members;
  }

  lemma {:induction false} ReadAllOneMore(kind: Kind, start: Value, values: seq<Raw>, raw: Raw)
    requires Fits(kind, start)
    ensures ReadAll(kind, start, values + [raw]) ==
            match ReadAll(kind, start, values) case None => None case Some(value) => Read(kind, value, raw)
  {
    assert (values + [raw])[..|values|] == values;
  }

  /** What a field is after the members: what its own members make of it, in order. */
  ghost predicate FieldReads(field: Field, start: Value, members: seq<Member>, value: Value)
    requires Fits(field.kind, start)
  {
    ReadAll(field.kind, start, ValuesOf(members, field.name)) == Some(value)
  }

  /** Reading one more member: only the field of its name changes. */
  lemma {:induction false} ReadOneMore(fields: seq<Field>, parts: seq<Value>, front: seq<Member>, last: Member)
    requires FitAll(fields, parts) && ReadMembers(fields, parts, front + [last]).Some?
    ensures ReadMembers(fields, parts, front).Some?
    ensures var before, after := ReadMembers(fields, parts, front).value, ReadMembers(fields, parts, front + [last]).value;
            match FieldFor(fields, last.key)
            case None => after == before
            case Some(i) =>
              Read(fields[i].kind, before[i], last.value).Some? && after == before[i := Read(fields[i].kind, before[i], last.value).value]
  {
    hide Read, FieldFor, Fits;
    assert (front + [last])[..|front|] == front;
  }

  /** Fields are read independently of each other. */
  lemma {:induction false} ReadMembersEach(fields: seq<Field>, parts: seq<Value>, members: seq<Member>, i: nat)
    requires WellNamed(fields) && FitAll(fields, parts) && i < |fields|
    requires ReadMembers(fields, parts, members).Some?
    ensures FieldReads(fields[i], parts[i], members, ReadMembers(fields, parts, members).value[i])
  {
    if members != [] {
      hide ReadMembers, Read, Fits, FieldFor, WellNamed, ValuesOf, Fold, ReadAll;
      var front, last := members[..|members| - 1], members[|members| - 1];
      assert members == front + [last];
      ReadOneMore(fields, parts, front, last);
      ReadMembersEach(fields, parts, front, i);
      ValuesOfOneMore(front, last, fields[i].name);
      FieldForIs(fields, last.key, i);
      if Fold(last.key) == fields[i].name {
        ReadAllOneMore(fields[i].kind, parts[i], ValuesOf(front, fields[i].name), last.value);
      } else {
        assert ValuesOf(front, fields[i].name) + [] == ValuesOf(front, fields[i].name);
      }
    }
  }

  /** When no decoded name is a variant, a field is told nothing without a member of its own
      name, and its last such member last. */
  lemma {:induction false} LastToldIsDecoded(members: seq<Member>, name: string)
    requires forall key | key in DecodeMembers(members) :: Fold(key) == key
    ensures var told := ValuesOf(members, name);
            if name in DecodeMembers(members) then told != [] && Decode(told[|told| - 1]) == DecodeMembers(members)[name]
            else told == []
  {
    LookupIsLast(members, name);
    match LastWith(members, name)
    case None => OnlyOwnMembers(members, members, name);
    case Some(at) =>
      TellsAround(members, name, at);
      OnlyOwnMembers(members, members[at + 1..], name);
  }

  lemma {:induction false} OnlyOwnMembers(members: seq<Member>, some: seq<Member>, name: string)
    requires forall key | key in DecodeMembers(members) :: Fold(key) == key
    requires forall m | m in some :: m in members && m.key != name
    ensures ValuesOf(some, name) == []
  {
    var chosen := Chosen(some, name);
    if chosen != [] {
      ChosenAreMembers(some, name, chosen[0]);
      LookupIsLast(members, chosen[0].key);
    }
  }

  /** The last value a field is told is read over what the earlier ones left. */
  lemma {:induction false} LastReads(fields: seq<Field>, parts: seq<Value>, members: seq<Member>, i: nat) returns (held: Value, last: Raw)
    requires WellNamed(fields) && FitAll(fields, parts) && i < |fields| && ReadMembers(fields, parts, members).Some?
    requires forall key | key in DecodeMembers(members) :: Fold(key) == key
    requires fields[i].name in DecodeMembers(members)
    ensures Fits(fields[i].kind, held) && Decode(last) == DecodeMembers(members)[fields[i].name]
    ensures Read(fields[i].kind, held, last) == Some(ReadMembers(fields, parts, members).value[i])
  {
    var told := ValuesOf(members, fields[i].name);
    LastToldIsDecoded(members, fields[i].name);
    ReadMembersEach(fields, parts, members, i);
    last := told[|told| - 1];
    held := ReadAll(fields[i].kind, parts[i], told[..|told| - 1]).value;
  }

  /** Reading succeeds exactly when every field is told values of its type only. */
  lemma {:induction false} ReadsWhenTyped(fields: seq<Field>, parts: seq<Value>, members: seq<Member>)
    requires WellNamed(fields) && FitAll(fields, parts)
    ensures ReadMembers(fields, parts, members).Some?
            <==> forall i | 0 <= i < |fields| :: AllTyped(fields[i].kind, ValuesOf(members, fields[i].name))
  {
    hide Typed, Fits, ReadMembers;
    ReadMembersAcceptsTyped(fields, parts, members);
    forall i, raw | 0 <= i < |fields| && ReadMembers(fields, parts, members).Some? && raw in ValuesOf(members, fields[i].name)
      ensures Typed(fields[i].kind, raw)
    {
      var chosen := Chosen(members, fields[i].name);
      var k :| 0 <= k < |chosen| && Values(chosen)[k] == raw;
      ChosenAreMembers(members, fields[i].name, chosen[k]);
      FieldForIs(fields, chosen[k].key, i);
      assert TypedMember(fields, chosen[k]);
    }
    if forall i | 0 <= i < |fields| :: AllTyped(fields[i].kind, ValuesOf(members, fields[i].name)) {
      forall m | m in members && FieldFor(fields, m.key).Some? ensures TypedMember(fields, m) {
        var i := FieldFor(fields, m.key).value;
        ChosenAreMembers(members, fields[i].name, m);
        var k :| 0 <= k < |Chosen(members, fields[i].name)| && Chosen(members, fields[i].name)[k] == m;
        assert ValuesOf(members, fields[i].name)[k] == m.value;
      }
    }
  }

  /** What each field is told determines the struct. */
  lemma {:induction false} FieldsFixTheStruct(fields: seq<Field>, members: seq<Member>, parts: seq<Value>)
    requires WellNamed(fields) && |parts| == |fields|
    requires forall i | 0 <= i < |fields| :: FieldReads(fields[i], Zero(fields[i].kind), members, parts[i])
    ensures ReadMembers(fields, Zeros(fields), members) == Some(parts)
  {
    hide Typed, Fits, ReadMembers, ReadAll, ValuesOf, WellNamed, Zero;
    forall i | 0 <= i < |fields| ensures AllTyped(fields[i].kind, ValuesOf(members, fields[i].name)) {
      assert FieldReads(fields[i], Zero(fields[i].kind), members, parts[i]);
      ReadAllAcceptsTyped(fields[i].kind, Zero(fields[i].kind), ValuesOf(members, fields[i].name));
    }
    ReadsWhenTyped(fields, Zeros(fields), members);
    var read := ReadMembers(fields, Zeros(fields), members).value;
    forall i | 0 <= i < |fields| ensures read[i] == parts[i] {
      ReadMembersEach(fields, Zeros(fields), members, i);
      assert FieldReads(fields[i], Zero(fields[i].kind), members, parts[i]);
    }
    assert read == parts;
  }

  /** The members of all objects among the values, in order. */
  function MembersOf(values: seq<Raw>): seq<Member> {
    if values == [] then []
    else
      var last := values[|values| - 1];
      MembersOf(values[..|values| - 1]) + if last.RObject? then last.members else []
  }

  lemma {:induction false} MembersOfBoth(a: seq<Raw>, b: seq<Raw>)
    ensures MembersOf(a + b) == MembersOf(a) + MembersOf(b)
  {
    if b == [] {
      assert a + b == a;
    } else {
      var front := b[..|b| - 1];
      MembersOfBoth(a, front);
      assert (a + b)[..|a + b| - 1] == a + front;
    }
  }

  /** What the values tell one field of a struct. */
  function Sub(values: seq<Raw>, name: string): seq<Raw> {
    ValuesOf(MembersOf(values), name)
  }

  lemma {:induction false} SubOfBoth(a: seq<Raw>, b: seq<Raw>, name: string)
    ensures Sub(a + b, name) == Sub(a, name) + Sub(b, name)
  {
    MembersOfBoth(a, b);
    ChosenOfBoth(MembersOf(a), MembersOf(b), name);
  }

  lemma {:induction false} ReadMembersBoth(fields: seq<Field>, parts: seq<Value>, a: seq<Member>, b: seq<Member>)
    requires FitAll(fields, parts)
    ensures ReadMembers(fields, parts, a + b) ==
            match ReadMembers(fields, parts, a) case None => None case Some(p) => ReadMembers(fields, p, b)
  {
    if b == [] {
      assert a + b == a;
    } else {
      ReadMembersBoth(fields, parts, a, b[..|b| - 1]);
      assert (a + b)[..|a + b| - 1] == a + b[..|b| - 1];
    }
  }

  /** Several values read into a struct are one long object. */
  lemma {:induction false} ReadStructs(fields: seq<Field>, parts: seq<Value>, values: seq<Raw>)
    requires FitAll(fields, parts) && AllTyped(StructKind(fields), values)
    ensures ReadMembers(fields, parts, MembersOf(values)).Some?
    ensures ReadAll(StructKind(fields), Record(parts), values)
            == Some(Record(ReadMembers(fields, parts, MembersOf(values)).value))
  {
    if values != [] {
      var front, last := values[..|values| - 1], values[|values| - 1];
      ReadStructs(fields, parts, front);
      assert last in values;
      var members := if last.RObject? then last.members else [];
      ReadMembersBoth(fields, parts, MembersOf(front), members);
      ReadAcceptsTyped(StructKind(fields), Record(ReadMembers(fields, parts, MembersOf(front)).value), last);
    }
  }

  // ---- Writing

  /** What `omitempty` leaves out. */
  predicate Empty(value: Value) {
    match value
    case Str(s) => s == ""
    case Int(n) => n == 0
    case Message(raw) => raw.None?
    case Entries(entries) => entries == map[]
    case List(items, _) => items.None? || items.value == []
    case _ => false
  }

  predicate Shown(field: Field, value: Value) {
    field.optional ==> !Empty(value)
  }

  function Integer(n: int): string {
    if n < 0 then "-" + Decimal(-n) else Decimal(n)
  }

  /** Encoded maps list their members in sorted order. */
  function SortedMembers(fields: map<string, Raw>): seq<Member> {
    var keys := SortedKeys(fields.Keys);
    seq(|keys|, i requires 0 <= i < |keys| => assert keys[i] in keys; Member(keys[i], fields[keys[i]]))
  }

  function Strings(items: seq<string>): seq<Raw> {
    seq(|items|, i requires 0 <= i < |items| => RString(items[i]))
  }

  function Write(kind: Kind, value: Value): Raw
    requires Fits(kind, value)
    decreases value
  {
    match kind
    case StringKind => RString(value.s)
    case TimeKind => RString(Decimal(value.t))
    case IntKind => RNumber(Integer(value.n))
    case RawKind => if value.raw.Some? then value.raw.value else RNull
    case MapKind => RObject(SortedMembers(value.entries))
    case ListKind => if value.items.Some? then RArray(Strings(value.items.value)) else RNull
    case StructKind(fields) => RObject(WriteFields(fields, value.parts))
  }

  /** The members of a struct in tag order. */
  function WriteFields(fields: seq<Field>, parts: seq<Value>): seq<Member>
    requires FitAll(fields, parts)
    decreases parts
  {
    if fields == [] then []
    else
      (if Shown(fields[0], parts[0]) then [Member(fields[0].name, Write(fields[0].kind, parts[0]))] else [])
      + WriteFields(fields[1..], parts[1..])
  }

  /** What a struct's encoding tells this field. */
  function Own(field: Field, part: Value): seq<Raw>
    requires Fits(field.kind, part)
  {
    if Shown(field, part) then [Write(field.kind, part)] else []
  }

  // ---- Reading undoes writing

  lemma {:induction false} WrittenMembers(fields: seq<Field>, parts: seq<Value>, m: Member)
    requires FitAll(fields, parts)
    ensures m in WriteFields(fields, parts) <==>
              exists i | 0 <= i < |fields| :: Shown(fields[i], parts[i]) && m == Member(fields[i].name, Write(fields[i].kind, parts[i]))
  {
    if fields != [] {
      WrittenMembers(fields[1..], parts[1..], m);
      if i :| 0 <= i < |fields| && Shown(fields[i], parts[i]) && m == Member(fields[i].name, Write(fields[i].kind, parts[i])) {
        assert i > 0 ==> fields[1..][i - 1] == fields[i] && parts[1..][i - 1] == parts[i];
      }
      if m in WriteFields(fields[1..], parts[1..]) {
        var i :| 0 <= i < |fields| - 1 && Shown(fields[1..][i], parts[1..][i])
                 && m == Member(fields[1..][i].name, Write(fields[1..][i].kind, parts[1..][i]));
        assert fields[i + 1] == fields[1..][i] && parts[i + 1] == parts[1..][i];
      }
    }
  }

  lemma {:induction false} NothingWritten(fields: seq<Field>, parts: seq<Value>, name: string)
    requires FitAll(fields, parts) && forall i | 0 <= i < |fields| :: fields[i].name != name && Fold(fields[i].name) == fields[i].name
    ensures ValuesOf(WriteFields(fields, parts), name) == []
  {
    var chosen := Chosen(WriteFields(fields, parts), name);
    if chosen != [] {
      ChosenAreMembers(WriteFields(fields, parts), name, chosen[0]);
      WrittenMembers(fields, parts, chosen[0]);
    }
  }

  lemma {:induction false} WrittenValues(fields: seq<Field>, parts: seq<Value>, i: nat)
    requires WellNamed(fields) && FitAll(fields, parts) && i < |fields|
    ensures ValuesOf(WriteFields(fields, parts), fields[i].name) == Own(fields[i], parts[i])
  {
    hide Write, Fits, Shown, Fold, ValuesOf;
    var name, rest := fields[i].name, WriteFields(fields[1..], parts[1..]);
    var first := if Shown(fields[0], parts[0]) then [Member(fields[0].name, Write(fields[0].kind, parts[0]))] else [];
    ChosenOfBoth(first, rest, name);
    ValuesOfFirst(fields, parts, name);
    assert WellNamed(fields[1..]);
    if i == 0 {
      NothingWritten(fields[1..], parts[1..], name);
    } else {
      WrittenValues(fields[1..], parts[1..], i - 1);
      assert fields[1..][i - 1] == fields[i];
    }
  }

  lemma {:induction false} ValuesOfFirst(fields: seq<Field>, parts: seq<Value>, name: string)
    requires WellNamed(fields) && FitAll(fields, parts) && fields != []
    ensures var first := if Shown(fields[0], parts[0]) then [Member(fields[0].name, Write(fields[0].kind, parts[0]))] else [];
            ValuesOf(first, name) == if fields[0].name == name then Own(fields[0], parts[0]) else []
  {
    hide Write, Fits, Shown;
    if Shown(fields[0], parts[0]) {
      var m := Member(fields[0].name, Write(fields[0].kind, parts[0]));
      ValuesOfOneMore([], m, name);
      assert [] + [m] == [m];
    }
  }

  lemma {:induction false} RawFieldsOfSorted(fields: map<string, Raw>)
    ensures RawFields(SortedMembers(fields)) == fields
  {
    var members := SortedMembers(fields);
    forall key ensures key in RawFields(members) <==> key in fields
               ensures key in fields ==> RawFields(members)[key] == fields[key] {
      RawFieldIsLast(members, key);
      if key in fields {
        var i :| 0 <= i < |members| && SortedKeys(fields.Keys)[i] == key;
        assert members[i].key == key;
      }
    }
    assert RawFields(members) == fields;
  }

  lemma {:induction false} IntegerOfInteger(n: int)
    requires InInt64(n)
    ensures IntegerOf(Integer(n)) == Some(n)
  {
    hide Decimal, DigitsValue;
    var digits := Decimal(if n < 0 then -n else n);
    DigitsValueUndoesDecimal(if n < 0 then -n else n);
    assert digits[0] != '-';
    assert ("-" + digits)[1..] == digits;
  }

  /** Values that their encoding determines: no message is nil, and nothing is held behind a
      slice's length. A field left out holds the zero value. */
  ghost predicate Solid(kind: Kind, value: Value)
    requires Fits(kind, value)
    decreases value, 0
  {
    match kind
    case RawKind => value.raw.Some?
    case ListKind => value.spare == []
    case StructKind(fields) => FitAll(fields, value.parts) && forall i | 0 <= i < |fields| :: SolidPart(fields[i], value.parts[i])
    case _ => true
  }

  ghost predicate SolidPart(field: Field, part: Value)
    requires Fits(field.kind, part)
    decreases part, 1
  {
    if Shown(field, part) then Solid(field.kind, part) else part == Zero(field.kind)
  }

  lemma {:induction false} WrittenReads(kind: Kind, value: Value)
    requires WellNamedKind(kind) && Fits(kind, value) && Solid(kind, value)
    ensures Read(kind, Zero(kind), Write(kind, value)) == Some(value)
    decreases value, 0
  {
    hide Decimal, DigitsValue, Integer, IntegerOf, RawFields, SortedMembers, ReadMembers, WriteFields;
    match kind
    case TimeKind => DigitsValueUndoesDecimal(value.t);
    case IntKind => IntegerOfInteger(value.n);
    case MapKind =>
      RawFieldsOfSorted(value.entries);
      assert map[] + value.entries == value.entries;
    case ListKind =>
      if value.items.Some? {
        assert ReadList([], Strings(value.items.value)).items.value == value.items.value;
      }
    case StructKind(fields) => WrittenFieldsRead(fields, value.parts);
    case _ =>
  }

  lemma {:induction false} WrittenFieldsRead(fields: seq<Field>, parts: seq<Value>)
    requires WellNamed(fields) && FitAll(fields, parts)
    requires forall i | 0 <= i < |fields| :: SolidPart(fields[i], parts[i])
    ensures ReadMembers(fields, Zeros(fields), WriteFields(fields, parts)) == Some(parts)
    decreases parts, 0
  {
    forall i | 0 <= i < |fields| ensures FieldReads(fields[i], Zero(fields[i].kind), WriteFields(fields, parts), parts[i]) {
      OwnReads(fields[i], parts[i]);
      WrittenValues(fields, parts, i);
    }
    FieldsFixTheStruct(fields, WriteFields(fields, parts), parts);
  }

  /** A field's own encoding, read alone, gives it back. */
  lemma {:induction false} OwnReads(field: Field, part: Value)
    requires WellNamedKind(field.kind) && Fits(field.kind, part) && SolidPart(field, part)
    ensures ReadAll(field.kind, Zero(field.kind), Own(field, part)) == Some(part) && AllTyped(field.kind, Own(field, part))
    decreases part, 1
  {
    if Shown(field, part) {
      WrittenReads(field.kind, part);
      ReadAllOneMore(field.kind, Zero(field.kind), [], Write(field.kind, part));
      assert [] + [Write(field.kind, part)] == Own(field, part);
      ReadAcceptsTyped(field.kind, Zero(field.kind), Write(field.kind, part));
    }
  }

  /** A struct's own encoding is merged into what an earlier object said. */
  lemma {:induction false} MergedStruct(fields: seq<Field>, earlier: seq<Member>, parts: seq<Value>, merged: seq<Value>)
    requires WellNamed(fields) && FitAll(fields, parts) && |merged| == |fields|
    requires forall i | 0 <= i < |fields| ::
               ReadAll(fields[i].kind, Zero(fields[i].kind), ValuesOf(earlier, fields[i].name) + Own(fields[i], parts[i])) == Some(merged[i])
    ensures var kind := StructKind(fields);
            ReadAll(kind, Zero(kind), [RObject(earlier), Write(kind, Record(parts))]) == Some(Record(merged))
  {
    var kind, own := StructKind(fields), WriteFields(fields, parts);
    forall i | 0 <= i < |fields| ensures FieldReads(fields[i], Zero(fields[i].kind), earlier + own, merged[i]) {
      ChosenOfBoth(earlier, own, fields[i].name);
      WrittenValues(fields, parts, i);
    }
    FieldsFixTheStruct(fields, earlier + own, merged);
    ReadMembersBoth(fields, Zeros(fields), earlier, own);
    ReadAllOneMore(kind, Zero(kind), [], RObject(earlier));
    ReadAllOneMore(kind, Zero(kind), [RObject(earlier)], RObject(own));
    assert [] + [RObject(earlier)] == [RObject(earlier)] && [RObject(earlier)] + [RObject(own)] == [RObject(earlier), RObject(own)];
  }

  // ---- When further values disturb nothing

  /** The last value that is not null. */
  function LastTold(values: seq<Raw>): (told: Option<Raw>)
    ensures told.Some? ==> told.value in values && !told.value.RNull?
  {
    if values == [] then None
    else
      var last := values[|values| - 1];
      if last.RNull? then LastTold(values[..|values| - 1]) else Some(last)
  }

  lemma {:induction false} LastToldOfBoth(a: seq<Raw>, b: seq<Raw>)
    ensures LastTold(a + b) == if LastTold(b).Some? then LastTold(b) else LastTold(a)
  {
    if b == [] {
      assert a + b == a;
    } else {
      LastToldOfBoth(a, b[..|b| - 1]);
      assert (a + b)[..|a + b| - 1] == a + b[..|b| - 1];
    }
  }

  predicate Scalar(kind: Kind) { kind.StringKind? || kind.TimeKind? || kind.IntKind? }

  /** A scalar holds what it was last told. */
  lemma {:induction false} ScalarReads(kind: Kind, start: Value, values: seq<Raw>)
    requires Scalar(kind) && Fits(kind, start) && AllTyped(kind, values)
    ensures ReadAll(kind, start, values) == match LastTold(values) case None => Some(start) case Some(raw) => Meaning(kind, raw)
  {
    if values != [] {
      ScalarReads(kind, start, values[..|values| - 1]);
      assert values[|values| - 1] in values;
    }
  }

  /** What an earlier list held shows through nulls, even after a shorter list in between. */
  lemma {:induction false} ListElementsLinger(a: string, b: string)
    ensures ReadAll(ListKind, List(None, []), [RArray([RString(a), RString(b)]), RArray([RNull]), RArray([RNull, RNull])])
            == Some(List(Some([a, b]), []))
  {
    var full, one, two := RArray([RString(a), RString(b)]), RArray([RNull]), RArray([RNull, RNull]);
    var start := List(None, []);
    ListRead(start, full, [a, b], []);
    ListRead(List(Some([a, b]), []), one, [a], [b]);
    ListRead(List(Some([a]), [b]), two, [a, b], []);
    ReadAllOneMore(ListKind, start, [], full);
    ReadAllOneMore(ListKind, start, [full], one);
    ReadAllOneMore(ListKind, start, [full, one], two);
    assert [] + [full] == [full] && [full] + [one] == [full, one] && [full, one] + [two] == [full, one, two];
  }

  lemma {:induction false} ListRead(current: Value, raw: Raw, items: seq<string>, spare: seq<string>)
    requires current.List? && raw.RArray? && raw.items != [] && |items| == |raw.items|
    requires forall item | item in raw.items :: IsItem(item)
    requires forall i | 0 <= i < |items| :: items[i] == ItemOver(Held(current), i, raw.items[i])
    requires spare == if |items| <= |Held(current)| then Held(current)[|items|..] else []
    ensures Read(ListKind, current, raw) == Some(List(Some(items), spare))
  {
    assert ReadList(Held(current), raw.items).items.value == items;
  }

  lemma {:induction false} MessageReads(start: Value, values: seq<Raw>)
    requires start.Message?
    ensures ReadAll(RawKind, start, values) == Some(if values == [] then start else Message(Some(values[|values| - 1])))
  {
    if values != [] {
      MessageReads(start, values[..|values| - 1]);
    }
  }

  predicate HasNull(values: seq<Raw>) { RNull in values }

  /** The entries told since the last null. */
  function Left(values: seq<Raw>): map<string, Raw> {
    if values == [] then map[]
    else
      var last := values[|values| - 1];
      if last.RObject? then Left(values[..|values| - 1]) + RawFields(last.members) else map[]
  }

  lemma {:induction false} LeftOfBoth(a: seq<Raw>, b: seq<Raw>)
    requires AllTyped(MapKind, b)
    ensures Left(a + b) == if HasNull(b) then Left(b) else Left(a) + Left(b)
  {
    if b == [] {
      assert a + b == a;
      assert Left(a) + map[] == Left(a);
    } else {
      var front, last := b[..|b| - 1], b[|b| - 1];
      LeftOfBoth(a, front);
      assert (a + b)[..|a + b| - 1] == a + front;
      assert b == front + [last] && last in b;
      if last.RObject? {
        AddedInOrder(Left(a), Left(front), RawFields(last.members));
      }
    }
  }

  lemma {:induction false} AddedInOrder(a: map<string, Raw>, b: map<string, Raw>, c: map<string, Raw>)
    ensures a + b + c == a + (b + c)
  {
  }

  lemma {:induction false} MapReads(values: seq<Raw>)
    requires AllTyped(MapKind, values)
    ensures ReadAll(MapKind, Entries(map[]), values) == Some(Entries(Left(values)))
  {
    if values != [] {
      MapReads(values[..|values| - 1]);
      assert values[|values| - 1] in values;
    }
  }

  /** Later values tell no entry that `own` does not tell alike; earlier ones no entry that
      it does not tell at all, unless it tells null. After a later null only what follows
      counts. */
  ghost predicate MapUndisturbed(before: seq<Raw>, own: seq<Raw>, after: seq<Raw>) {
    if HasNull(after) then Left(after) == Left(own)
    else
      && (forall k | k in Left(after) :: k in Left(own) && Left(own)[k] == Left(after)[k])
      && (HasNull(own) || forall k | k in Left(before) :: k in Left(own))
  }

  lemma {:induction false} MapUndisturbedExactly(before: seq<Raw>, own: seq<Raw>, after: seq<Raw>)
    requires AllTyped(MapKind, before) && AllTyped(MapKind, own) && AllTyped(MapKind, after)
    ensures Left(before + own + after) == Left(own) <==> MapUndisturbed(before, own, after)
  {
    hide Left, HasNull;
    LeftOfBoth(before + own, after);
    LeftOfBoth(before, own);
    var all, alone := Left(before + own + after), Left(own);
    forall k ensures k in all && !HasNull(after) <==>
                       !HasNull(after) && (k in Left(after) || k in alone || (!HasNull(own) && k in Left(before))) {
    }
    assert MapUndisturbed(before, own, after) ==> all == alone;
  }

  /** No slices, at any depth. */
  ghost predicate Plain(kind: Kind) {
    !kind.ListKind? && (kind.StructKind? ==> forall i | 0 <= i < |kind.fields| :: Plain(kind.fields[i].kind))
  }

  /** What the values before and after `own` must be like for the variable to end as `own`
      alone would leave it, type by type. */
  ghost predicate Undisturbed(kind: Kind, before: seq<Raw>, own: seq<Raw>, after: seq<Raw>) {
    match kind
    case RawKind => if own == [] then before == [] && after == [] else after == [] || after[|after| - 1] == own[|own| - 1]
    case MapKind => MapUndisturbed(before, own, after)
    case ListKind => before == [] && after == []
    case StructKind(fields) =>
      forall i | 0 <= i < |fields| ::
        Undisturbed(fields[i].kind, Sub(before, fields[i].name), Sub(own, fields[i].name), Sub(after, fields[i].name))
    case _ => ScalarUndisturbed(kind, before, own, after)
  }

  /** The last thing told after `own` says the same; when `own` tells nothing, the last thing
      told at all says the zero value. */
  ghost predicate ScalarUndisturbed(kind: Kind, before: seq<Raw>, own: seq<Raw>, after: seq<Raw>) {
    if LastTold(own).Some? then LastTold(after).Some? ==> Meaning(kind, LastTold(after).value) == Meaning(kind, LastTold(own).value)
    else LastTold(before + after).Some? ==> Meaning(kind, LastTold(before + after).value) == Some(Zero(kind))
  }

  lemma {:induction false} ScalarUndisturbedExactly(kind: Kind, before: seq<Raw>, own: seq<Raw>, after: seq<Raw>)
    requires Scalar(kind) && AllTyped(kind, before) && AllTyped(kind, own) && AllTyped(kind, after)
    ensures ReadAll(kind, Zero(kind), before + own + after) == ReadAll(kind, Zero(kind), own)
            <==> ScalarUndisturbed(kind, before, own, after)
  {
    hide Meaning, Zero;
    ScalarReads(kind, Zero(kind), before + own + after);
    ScalarReads(kind, Zero(kind), own);
    LastToldOfBoth(before + own, after);
    LastToldOfBoth(before, own);
    LastToldOfBoth(before, after);
  }

  lemma {:induction false} SubTyped(fields: seq<Field>, values: seq<Raw>, i: nat)
    requires WellNamed(fields) && AllTyped(StructKind(fields), values) && i < |fields|
    ensures AllTyped(fields[i].kind, Sub(values, fields[i].name))
  {
    ReadStructs(fields, Zeros(fields), values);
    ReadMembersEach(fields, Zeros(fields), MembersOf(values), i);
    ReadAllAcceptsTyped(fields[i].kind, Zero(fields[i].kind), Sub(values, fields[i].name));
  }

  /** A struct read from the values is, field by field, what each field is told. */
  lemma {:induction false} StructReadsEach(fields: seq<Field>, values: seq<Raw>, i: nat)
    requires WellNamed(fields) && AllTyped(StructKind(fields), values) && i < |fields|
    ensures var r := ReadAll(StructKind(fields), Zero(StructKind(fields)), values);
            && r.Some? && r.value.Record? && |r.value.parts| == |fields|
            && ReadAll(fields[i].kind, Zero(fields[i].kind), Sub(values, fields[i].name)) == Some(r.value.parts[i])
  {
    ReadStructs(fields, Zeros(fields), values);
    ReadMembersEach(fields, Zeros(fields), MembersOf(values), i);
  }

  /** Reading `own` among other values gives what it gives alone exactly when those disturb
      nothing. */
  lemma {:induction false} UndisturbedExactly(kind: Kind, before: seq<Raw>, own: seq<Raw>, after: seq<Raw>)
    requires WellNamedKind(kind) && Plain(kind)
    requires AllTyped(kind, before) && AllTyped(kind, own) && AllTyped(kind, after)
    ensures ReadAll(kind, Zero(kind), before + own + after) == ReadAll(kind, Zero(kind), own)
            <==> Undisturbed(kind, before, own, after)
    decreases kind
  {
    match kind
    case RawKind =>
      MessageReads(Message(None), before + own + after);
      MessageReads(Message(None), own);
    case MapKind =>
      MapReads(before + own + after);
      MapReads(own);
      MapUndisturbedExactly(before, own, after);
    case StructKind(fields) =>
      StructUndisturbedExactly(fields, before, own, after);
    case _ => ScalarUndisturbedExactly(kind, before, own, after);
  }

  lemma {:induction false} StructUndisturbedExactly(fields: seq<Field>, before: seq<Raw>, own: seq<Raw>, after: seq<Raw>)
    requires WellNamed(fields) && Plain(StructKind(fields))
    requires AllTyped(StructKind(fields), before) && AllTyped(StructKind(fields), own) && AllTyped(StructKind(fields), after)
    ensures ReadAll(StructKind(fields), Zero(StructKind(fields)), before + own + after)
            == ReadAll(StructKind(fields), Zero(StructKind(fields)), own)
            <==> Undisturbed(StructKind(fields), before, own, after)
    decreases fields
  {
    var kind := StructKind(fields);
    var all, alone := ReadAll(kind, Zero(kind), before + own + after), ReadAll(kind, Zero(kind), own);
    ReadStructs(fields, Zeros(fields), before + own + after);
    ReadStructs(fields, Zeros(fields), own);
    forall i | 0 <= i < |fields|
      ensures all.value.parts[i] == alone.value.parts[i]
              <==> Undisturbed(fields[i].kind, Sub(before, fields[i].name), Sub(own, fields[i].name), Sub(after, fields[i].name))
    {
      FieldUndisturbedExactly(fields, before, own, after, i);
    }
    if Undisturbed(kind, before, own, after) {
      assert all.value.parts == alone.value.parts;
    }
  }

  lemma {:induction false} FieldUndisturbedExactly(fields: seq<Field>, before: seq<Raw>, own: seq<Raw>, after: seq<Raw>, i: nat)
    requires WellNamed(fields) && Plain(StructKind(fields)) && i < |fields|
    requires AllTyped(StructKind(fields), before) && AllTyped(StructKind(fields), own) && AllTyped(StructKind(fields), after)
    ensures var kind := StructKind(fields);
            var all, alone := ReadAll(kind, Zero(kind), before + own + after), ReadAll(kind, Zero(kind), own);
            && all.Some? && alone.Some? && all.value.Record? && alone.value.Record?
            && |all.value.parts| == |alone.value.parts| == |fields|
            && (all.value.parts[i] == alone.value.parts[i]
                <==> Undisturbed(fields[i].kind, Sub(before, fields[i].name), Sub(own, fields[i].name), Sub(after, fields[i].name)))
    decreases fields[i]
  {
    hide Undisturbed, Read;
    var name := fields[i].name;
    StructReadsEach(fields, before + own + after, i);
    StructReadsEach(fields, own, i);
    SubOfBoth(before + own, after, name);
    SubOfBoth(before, own, name);
    SubTyped(fields, before, i);
    SubTyped(fields, own, i);
    SubTyped(fields, after, i);
    UndisturbedExactly(fields[i].kind, Sub(before, name), Sub(own, name), Sub(after, name));
  }
}
