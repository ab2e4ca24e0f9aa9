/** The relay's recursive redaction and its processing of events
    (cmd/epistemic-relay/main.go). */
module Relay {
  import opened Text
  import opened Json
  import Protocol

  const MARKER := String("[REDACTED]")

  /** The listed names, Go's lower-casing, and which number spellings a float64 can hold. */
  datatype Settings = Settings(names: set<string>, lower: string -> string, fits: string -> bool)

  predicate Listed(settings: Settings, key: string) {
    settings.lower(key) in settings.names
  }

  /** What redaction makes of a value. */
  function Redacted(settings: Settings, value: Json): Json {
    match value
    case Object(members) =>
      Object(map k | k in members :: if Listed(settings, k) then MARKER else Redacted(settings, members[k]))
    case Array(items) =>
      Array(seq(|items|, i requires 0 <= i < |items| => Redacted(settings, items[i])))
    case _ => value
  }

  /** The recursion of `redactValue`: it overwrites the entries of the decoded map or
      slice one at a time, map entries in an arbitrary order. */
  method RedactValue(settings: Settings, value: Json) returns (r: Json)
    ensures r == Redacted(settings, value)
    decreases value
  {
    match value
    case Object(members) =>
      var typed := members;
      var todo := typed.Keys;
      while todo != {}
        invariant todo <= members.Keys == typed.Keys
        invariant forall k | k in todo :: typed[k] == members[k]
        invariant forall k | k in members && k !in todo ::
                    typed[k] == if Listed(settings, k) then MARKER else Redacted(settings, members[k])
      {
        var key :| key in todo;
        if Listed(settings, key) {
          typed := typed[key := MARKER];
        } else {
          var item := RedactValue(settings, members[key]);
          typed := typed[key := item];
        }
        todo := todo - {key};
      }
      r := Object(typed);
    case Array(items) =>
      var typed := items;
      for index := 0 to |typed|
        invariant |typed| == |items|
        invariant forall k | 0 <= k < |items| :: typed[k] == if k < index then Redacted(settings, items[k]) else items[k]
      {
        var item := RedactValue(settings, items[index]);
        typed := typed[index := item];
      }
      r := Array(typed);
    case _ =>
      r := value;
  }

  // ---- What redaction means, path by path

  datatype Step = Name(key: string) | Index(i: nat)

  function At(value: Json, path: seq<Step>): Option<Json>
    decreases |path|
  {
    if path == [] then Some(value)
    else
      match path[0]
      case Name(key) =>
        if value.Object? && key in value.members then At(value.members[key], path[1..]) else None
      case Index(i) =>
        if value.Array? && i < |value.items| then At(value.items[i], path[1..]) else None
  }

  /** The length of the shortest prefix of the path that ends in a listed key. */
  function FirstListed(settings: Settings, path: seq<Step>): (n: Option<nat>)
    ensures n.Some? ==> 1 <= n.value <= |path|
    ensures n.Some? ==> path[n.value - 1].Name? && Listed(settings, path[n.value - 1].key)
    ensures n.None? ==> forall i | 0 <= i < |path| :: path[i].Name? ==> !Listed(settings, path[i].key)
  {
    if path == [] then None
    else if path[0].Name? && Listed(settings, path[0].key) then Some(1)
    else
      match FirstListed(settings, path[1..])
      case None => None
      case Some(n) => Some(n + 1)
  }

  /** A path without a listed key leads to the redaction of what it led to before, and
      leads nowhere when it led nowhere; the first listed key on a path leads to the
      marker, and nothing is left below it. */
  lemma {:induction false} RedactedAt(settings: Settings, value: Json, path: seq<Step>)
    ensures At(Redacted(settings, value), path) ==
            match FirstListed(settings, path)
            case None =>
              (match At(value, path) case None => None case Some(v) => Some(Redacted(settings, v)))
            case Some(n) =>
              if At(value, path[..n]).Some? && n == |path| then Some(MARKER) else None
    decreases |path|
  {
    if path != [] {
      var step, rest := path[0], path[1..];
      if step.Name? && Listed(settings, step.key) {
        assert path[..1] == [step] && [step][1..] == [];
        if rest != [] && value.Object? && step.key in value.members {
          assert At(MARKER, rest) == None;
        }
        if value.Object? && step.key in value.members {
          assert At(value, [step]) == At(value.members[step.key], []);
        }
      } else {
        if FirstListed(settings, rest).Some? {
          var n := FirstListed(settings, rest).value;
          assert path[..n + 1][1..] == rest[..n];
        }
        if step.Name? && value.Object? && step.key in value.members {
          RedactedAt(settings, value.members[step.key], rest);
        } else if step.Index? && value.Array? && step.i < |value.items| {
          RedactedAt(settings, value.items[step.i], rest);
        }
      }
    }
  }

  /** After redaction, whatever a listed key leads to, at any depth, is the marker. */
  lemma NoListedValueRemains(settings: Settings, value: Json, path: seq<Step>, key: string)
    requires settings.lower(key) in settings.names
    ensures At(Redacted(settings, value), path + [Name(key)]) in {None, Some(String("[REDACTED]"))}
  {
    var full := path + [Name(key)];
    RedactedAt(settings, value, full);
    assert full[|path|] == Name(key);
  }

  /** A path without a listed key leads somewhere exactly when it did, and to the same value
      if that is a text, a number, a truth value or null. */
  lemma OtherValuesStay(settings: Settings, value: Json, path: seq<Step>)
    requires forall i | 0 <= i < |path| && path[i].Name? :: settings.lower(path[i].key) !in settings.names
    ensures At(Redacted(settings, value), path).Some? <==> At(value, path).Some?
    ensures At(value, path).Some? && !At(value, path).value.Object? && !At(value, path).value.Array? ==>
              At(Redacted(settings, value), path) == At(value, path)
  {
    RedactedAt(settings, value, path);
  }

  lemma {:induction false} RedactionIsIdempotent(settings: Settings, value: Json)
    ensures Redacted(settings, Redacted(settings, value)) == Redacted(settings, value)
  {
    match value
    case Object(members) =>
      var once := Redacted(settings, value).members;
      forall k | k in members ensures (if Listed(settings, k) then MARKER else Redacted(settings, once[k])) == once[k] {
        RedactionIsIdempotent(settings, members[k]);
      }
      assert Redacted(settings, Redacted(settings, value)).members == once;
    case Array(items) =>
      var once := Redacted(settings, value).items;
      forall i | 0 <= i < |items| ensures Redacted(settings, once[i]) == once[i] {
        RedactionIsIdempotent(settings, items[i]);
      }
      assert Redacted(settings, Redacted(settings, value)).items == once;
    case _ =>
  }

  // ---- Events on their way through the relay

  /** Decoding into Go values succeeds when every number fits a float64, those of members
      that a later one replaces included. */
  predicate Decodable(settings: Settings, raw: Raw) {
    match raw
    case RNumber(spelling) => settings.fits(spelling)
    case RArray(items) => forall item | item in items :: Decodable(settings, item)
    case RObject(members) => forall m | m in members :: Decodable(settings, m.value)
    case _ => true
  }

  /** `redactEvent`: the data is decoded, redacted and encoded again. Data that does not
      decode, empty data among it, stays as it is. */
  function RedactedEvent(settings: Settings, e: Protocol.Event): Protocol.Event {
    if e.data.None? || !Decodable(settings, e.data.value) then e
    else e.(data := Some(Encode(Redacted(settings, Decode(e.data.value)))))
  }

  /** Whatever a listed key leads to in the event's data, at any depth, is the marker. */
  ghost predicate Clean(settings: Settings, e: Protocol.Event) {
    e.data.Some? ==>
      forall path, key | settings.lower(key) in settings.names ::
        At(Decode(e.data.value), path + [Name(key)]) in {None, Some(String("[REDACTED]"))}
  }

  ghost predicate DataDecodes(settings: Settings, e: Protocol.Event) {
    e.data.Some? ==> Decodable(settings, e.data.value)
  }

  /** Redaction changes the data only, leaves a valid event valid, and done twice equals
      done once. Its result is clean exactly when the data decodes, or was clean already. */
  lemma RedactedEventIsClean(settings: Settings, e: Protocol.Event)
    ensures var r := RedactedEvent(settings, e);
            && r == e.(data := r.data)
            && (Protocol.Valid(e) ==> Protocol.Valid(r))
            && RedactedEvent(settings, r) == r
            && (Clean(settings, r) <==> DataDecodes(settings, e) || Clean(settings, e))
  {
    hide Protocol.KnownType;
    if e.data.Some? && Decodable(settings, e.data.value) {
      var value := Decode(e.data.value);
      DecodeUndoesEncode(Redacted(settings, value));
      RedactionIsIdempotent(settings, value);
      forall path, key | settings.lower(key) in settings.names
        ensures At(Redacted(settings, value), path + [Name(key)]) in {None, Some(String("[REDACTED]"))}
      {
        NoListedValueRemains(settings, value, path, key);
      }
    }
  }

  /** A listed member beside a number too large for a float64: the event is sent with the
      member's value. */
  lemma LargeNumberKeepsTheSecret(settings: Settings, e: Protocol.Event, key: string, secret: string)
    requires settings.lower(key) in settings.names && key != "n" && !settings.fits("1e999") && secret != "[REDACTED]"
    requires e.data == Some(RObject([Member(key, RString(secret)), Member("n", RNumber("1e999"))]))
    ensures RedactedEvent(settings, e) == e && !Clean(settings, e)
  {
    var members := e.data.value.members;
    assert members[1] in members && !Decodable(settings, members[1].value);
    assert members[..1] == [members[0]] && members[..0] == [];
    assert DecodeMembers(members[..1]) == map[key := String(secret)];
    assert DecodeMembers(members)[key] == String(secret);
    assert At(Decode(e.data.value), [Name(key)]) == At(String(secret), []);
    assert [] + [Name(key)] == [Name(key)];
  }

  /** `emitted` is everything handed to the provider, whether it accepted or not. */
  class EventRelay {
    const settings: Settings
    var emitted: seq<Protocol.Event>

    constructor (settings: Settings)
      ensures this.settings == settings && emitted == [] && Valid()
    {
      this.settings, emitted := settings, [];
    }

    /** Everything emitted is valid, and clean unless its data does not decode. */
    ghost predicate Valid()
      reads this
    {
      forall i | 0 <= i < |emitted| :: Protocol.Valid(emitted[i]) && (DataDecodes(settings, emitted[i]) ==> Clean(settings, emitted[i]))
    }

    /** `accepted` is the provider's answer. */
    method Process(event: Protocol.Event, accepted: bool) returns (ok: bool)
      requires Valid()
      modifies this
      ensures Valid()
      ensures ok <==> Protocol.Valid(event) && accepted
      ensures emitted == if Protocol.Valid(event) then old(emitted) + [RedactedEvent(settings, event)] else old(emitted)
      ensures Protocol.Valid(event) ==> (Clean(settings, emitted[|emitted| - 1]) <==> DataDecodes(settings, event) || Clean(settings, event))
    {
      if !Protocol.Valid(event) {
        return false;
      }
      var redacted := RedactEvent(event);
      RedactedEventIsClean(settings, event);
      emitted := emitted + [redacted];
      ok := accepted;
    }

    method RedactEvent(event: Protocol.Event) returns (redacted: Protocol.Event)
      ensures redacted == RedactedEvent(settings, event)
    {
      if event.data.None? || !Decodable(settings, event.data.value) {
        return event;
      }
      var value := RedactValue(settings, Decode(event.data.value));
      redacted := event.(data := Some(Encode(value)));
    }
  }
}
