/** JSON documents. `Raw` is a text after lexing: object members in writing order,
    possibly repeated. `Json` is the decoded value, whose members are unordered
    (section 4 of RFC 8259) and whose numbers keep their spelling, as `json.Number` does. */
module Json {
  import opened Text

  datatype Member = Member(key: string, value: Raw)

  datatype Raw =
    | RNull
    | RBool(b: bool)
    | RNumber(spelling: string)
    | RString(s: string)
    | RArray(items: seq<Raw>)
    | RObject(members: seq<Member>)

  datatype Json =
    | Null
    | Bool(b: bool)
    | Number(spelling: string)
    | String(s: string)
    | Array(items: seq<Json>)
    | Object(members: map<string, Json>)

  /** Decoding: of repeated members the last one counts. */
  function Decode(raw: Raw): Json {
    match raw
    case RNull => Null
    case RBool(b) => Bool(b)
    case RNumber(n) => Number(n)
    case RString(s) => String(s)
    case RArray(items) => Array(seq(|items|, i requires 0 <= i < |items| => Decode(items[i])))
    case RObject(members) => Object(DecodeMembers(members))
  }

  function DecodeMembers(members: seq<Member>): map<string, Json> {
    if members == [] then map[]
    else
      var last := |members| - 1;
      DecodeMembers(members[..last])[members[last].key := Decode(members[last].value)]
  }

  /** Encoding: object members in sorted order. */
  function Encode(value: Json): Raw {
    match value
    case Null => RNull
    case Bool(b) => RBool(b)
    case Number(n) => RNumber(n)
    case String(s) => RString(s)
    case Array(items) => RArray(seq(|items|, i requires 0 <= i < |items| => Encode(items[i])))
    case Object(members) =>
      var keys := SortedKeys(members.Keys);
      RObject(seq(|keys|, i requires 0 <= i < |keys| =>
        assert keys[i] in keys; Member(keys[i], Encode(members[keys[i]]))))
  }

  /** `CanonicalJSON`: decode to generic values, encode again. */
  function Canonical(raw: Raw): Raw {
    Encode(Decode(raw))
  }

  // ---- Decoding undoes encoding

  /** The position of the last member with this key, or None. */
  function LastWith(members: seq<Member>, key: string): (at: Option<nat>)
    ensures at.Some? ==> at.value < |members| && members[at.value].key == key
    ensures at.Some? ==> forall i | at.value < i < |members| :: members[i].key != key
    ensures at.None? ==> forall i | 0 <= i < |members| :: members[i].key != key
  {
    if members == [] then None
    else if members[|members| - 1].key == key then Some(|members| - 1)
    else LastWith(members[..|members| - 1], key)
  }

  lemma {:induction false} LookupIsLast(members: seq<Member>, key: string)
    ensures key in DecodeMembers(members) <==> LastWith(members, key).Some?
    ensures key in DecodeMembers(members) ==>
              DecodeMembers(members)[key] == Decode(members[LastWith(members, key).value].value)
  {
    if members != [] {
      LookupIsLast(members[..|members| - 1], key);
    }
  }

  lemma {:induction false} DecodeUndoesEncode(value: Json)
    ensures Decode(Encode(value)) == value
  {
    hide DecodeMembers, Keys, LastWith, SortedKeys;
    match value
    case Array(items) =>
      forall i | 0 <= i < |items| ensures Decode(Encode(items[i])) == items[i] {
        DecodeUndoesEncode(items[i]);
      }
      assert Decode(Encode(value)).items == items;
    case Object(members) =>
      var encoded := Encode(value).members;
      var keys := SortedKeys(members.Keys);
      var decoded := DecodeMembers(encoded);
      forall key ensures key in decoded <==> key in members
                 ensures key in members ==> decoded[key] == members[key] {
        LookupIsLast(encoded, key);
        if key in members {
          DecodeUndoesEncode(members[key]);
          var i :| 0 <= i < |keys| && keys[i] == key;
          assert encoded[i].key == key;
        }
        if key in decoded {
          assert encoded[LastWith(encoded, key).value].key in keys;
        }
      }
      assert decoded == members;
    case _ =>
  }

  /** Two texts have the same canonical form exactly when they denote the same value. */
  lemma CanonicalDecidesEquality(a: Raw, b: Raw)
    ensures Canonical(a) == Canonical(b) <==> Decode(a) == Decode(b)
  {
    DecodeUndoesEncode(Decode(a));
    DecodeUndoesEncode(Decode(b));
  }

  lemma CanonicalIsIdempotent(raw: Raw)
    ensures Canonical(Canonical(raw)) == Canonical(raw)
  {
    DecodeUndoesEncode(Decode(raw));
  }

  /** The members of every object, at any depth, are in the order of their names, each once. */
  ghost predicate InOrder(raw: Raw) {
    match raw
    case RArray(items) => forall i | 0 <= i < |items| :: InOrder(items[i])
    case RObject(members) =>
      && (forall i, j | 0 <= i < j < |members| :: Precedes(members[i].key, members[j].key))
      && forall i | 0 <= i < |members| :: InOrder(members[i].value)
    case _ => true
  }

  lemma {:induction false} EncodedIsInOrder(value: Json)
    ensures InOrder(Encode(value))
  {
    match value
    case Array(items) =>
      forall i | 0 <= i < |items| ensures InOrder(Encode(items[i])) {
        EncodedIsInOrder(items[i]);
      }
    case Object(members) =>
      var keys := SortedKeys(members.Keys);
      forall i | 0 <= i < |keys| ensures keys[i] in members && InOrder(Encode(members[keys[i]])) {
        assert keys[i] in keys;
        EncodedIsInOrder(members[keys[i]]);
      }
    case _ =>
  }

  /** The canonical form denotes the same value and has its members in order. */
  lemma CanonicalIsInOrder(raw: Raw)
    ensures Decode(Canonical(raw)) == Decode(raw) && InOrder(Canonical(raw))
  {
    DecodeUndoesEncode(Decode(raw));
    EncodedIsInOrder(Decode(raw));
  }

  // ---- Member order does not matter, at any depth

  predicate DistinctKeys(members: seq<Member>) {
    forall i, j | 0 <= i < j < |members| :: members[i].key != members[j].key
  }

  ghost function Keys(members: seq<Member>): set<string> {
    set i | 0 <= i < |members| :: members[i].key
  }

  ghost predicate HasMatch(m: Member, others: seq<Member>) {
    exists j | 0 <= j < |others| :: others[j].key == m.key && Decode(m.value) == Decode(others[j].value)
  }

  lemma MatchingMembersDecodeAlike(members: seq<Member>, others: seq<Member>)
    requires DistinctKeys(members) && DistinctKeys(others)
    requires forall i | 0 <= i < |members| :: HasMatch(members[i], others)
    requires Keys(members) == Keys(others)
    ensures DecodeMembers(members) == DecodeMembers(others)
  {
    var left, right := DecodeMembers(members), DecodeMembers(others);
    forall key ensures key in left <==> key in right
               ensures key in left ==> left[key] == right[key] {
      assert key in Keys(members) <==> key in Keys(others);
      LookupIsLast(members, key);
      LookupIsLast(others, key);
    }
    assert left == right;
  }

  /** The same document, up to the order of the (distinct) members of each object. */
  ghost predicate Reordered(a: Raw, b: Raw) {
    match a
    case RArray(items) =>
      b.RArray? && |b.items| == |items| && forall i | 0 <= i < |items| :: Reordered(items[i], b.items[i])
    case RObject(members) =>
      && b.RObject? && |b.members| == |members|
      && DistinctKeys(members) && DistinctKeys(b.members)
      && Keys(members) == Keys(b.members)
      && forall i | 0 <= i < |members| :: Carried(members[i], b.members)
    case _ => a == b
  }

  ghost predicate Carried(m: Member, others: seq<Member>) {
    exists j | 0 <= j < |others| :: others[j].key == m.key && Reordered(m.value, others[j].value)
  }

  lemma {:induction false} ReorderedDecodesAlike(a: Raw, b: Raw)
    requires Reordered(a, b)
    ensures Decode(a) == Decode(b)
    decreases a
  {
    match a
    case RArray(items) =>
      forall i | 0 <= i < |items| ensures Decode(items[i]) == Decode(b.items[i]) {
        ReorderedDecodesAlike(items[i], b.items[i]);
      }
      assert Decode(a).items == Decode(b).items;
    case RObject(members) =>
      forall i | 0 <= i < |members| ensures HasMatch(members[i], b.members) {
        CarriedHasMatch(members[i], b.members);
      }
      MatchingMembersDecodeAlike(members, b.members);
    case _ =>
  }

  lemma {:induction false} CarriedHasMatch(m: Member, others: seq<Member>)
    requires Carried(m, others)
    ensures HasMatch(m, others)
    decreases m
  {
    var j :| 0 <= j < |others| && others[j].key == m.key && Reordered(m.value, others[j].value);
    ReorderedDecodesAlike(m.value, others[j].value);
  }

  /** Canonical form ignores member order at every depth. */
  lemma CanonicalIgnoresMemberOrder(a: Raw, b: Raw)
    requires Reordered(a, b)
    ensures Canonical(a) == Canonical(b)
  {
    ReorderedDecodesAlike(a, b);
  }
}
