/** Portable certificates: the engine seals them (`portableCertificate`), an ingesting
    engine checks them (`validatePortableCertificate`). */
module Seal {
  import opened Text
  import opened Json
  import opened StructJson
  import Protocol

  const ALGORITHM := "SHA-256"

  /** api/go/types.go `Certificate`. `artifacts` is None for a nil slice; `result` is the JSON
      value of the raw message, null for a nil one. */
  datatype Certificate = Certificate(
    specVersion: string, id: string, decision: string, result: Json, artifacts: Option<seq<string>>,
    issuedAt: nat, supersedes: string, algorithm: string, digest: string)

  function ArtifactsJson(artifacts: Option<seq<string>>): Json {
    match artifacts
    case None => Null
    case Some(hashes) => Array(seq(|hashes|, i requires 0 <= i < |hashes| => String(hashes[i])))
  }

  /** The JSON value of the struct. */
  function ToJson(c: Certificate): Json {
    var always := map["spec_version" := String(c.specVersion), "id" := String(c.id), "decision_id" := String(c.decision),
                      "result" := c.result, "artifact_hashes" := ArtifactsJson(c.artifacts),
                      "issued_at" := String(Decimal(c.issuedAt)),
                      "proof" := ProofJson(c)];
    Object(if c.supersedes == "" then always else always["supersedes" := String(c.supersedes)])
  }

  function ProofJson(c: Certificate): Json {
    Object(map["algorithm" := String(c.algorithm), "digest" := String(c.digest)])
  }

  /** The JSON value determines every field. */
  lemma StructSurvivesJson(c: Certificate, d: Certificate)
    requires ToJson(c) == ToJson(d)
    ensures c == d
  {
    var m, n := ToJson(c).members, ToJson(d).members;
    hide Decimal;
    TextsSurviveJson(c, d);
    assert m["result"] == n["result"] && m["artifact_hashes"] == n["artifact_hashes"] && m["issued_at"] == n["issued_at"];
    assert m["proof"] == n["proof"];
    DecimalIsInjective(c.issuedAt, d.issuedAt);
    ProofSurvivesJson(c, d);
    ArtifactsSurviveJson(c.artifacts, d.artifacts);
  }

  lemma TextsSurviveJson(c: Certificate, d: Certificate)
    requires ToJson(c) == ToJson(d)
    ensures c.specVersion == d.specVersion && c.id == d.id && c.decision == d.decision && c.supersedes == d.supersedes
  {
    hide ProofJson, ArtifactsJson, Decimal;
    var m, n := ToJson(c).members, ToJson(d).members;
    assert m["spec_version"] == n["spec_version"] && m["id"] == n["id"] && m["decision_id"] == n["decision_id"];
    assert "supersedes" in m <==> "supersedes" in n;
    assert "supersedes" in m ==> m["supersedes"] == n["supersedes"];
  }

  lemma ProofSurvivesJson(c: Certificate, d: Certificate)
    requires ProofJson(c) == ProofJson(d)
    ensures c.algorithm == d.algorithm && c.digest == d.digest
  {
    var m, n := ProofJson(c).members, ProofJson(d).members;
    assert m["algorithm"] == n["algorithm"] && m["digest"] == n["digest"];
  }

  lemma ArtifactsSurviveJson(a: Option<seq<string>>, b: Option<seq<string>>)
    requires ArtifactsJson(a) == ArtifactsJson(b)
    ensures a == b
  {
    if a.Some? && b.Some? {
      var s, t := ArtifactsJson(a).items, ArtifactsJson(b).items;
      forall i | 0 <= i < |a.value| ensures a.value[i] == b.value[i] {
        assert s[i] == t[i];
      }
      assert a.value == b.value;
    }
  }

  // ---- Decoding into the struct

  const PROOF := [StringField("algorithm"), StringField("digest")]

  const CERTIFICATE := [
    StringField("spec_version"), StringField("id"), StringField("decision_id"),
    Field("result", RawKind, false), Field("artifact_hashes", ListKind, false), Field("issued_at", TimeKind, false),
    OptionalString("supersedes"), Field("proof", StructKind(PROOF), false)]

  lemma {:induction false} CertificateKinds(p: seq<Value>)
    requires FitAll(CERTIFICATE, p)
    ensures p[0].Str? && p[1].Str? && p[2].Str? && p[3].Message? && p[4].List? && p[5].Time? && p[6].Str?
    ensures p[7].Record? && FitAll(PROOF, p[7].parts) && p[7].parts[0].Str? && p[7].parts[1].Str?
  {
    assert Fits(CERTIFICATE[0].kind, p[0]) && Fits(CERTIFICATE[1].kind, p[1]) && Fits(CERTIFICATE[2].kind, p[2]);
    assert Fits(CERTIFICATE[3].kind, p[3]) && Fits(CERTIFICATE[4].kind, p[4]) && Fits(CERTIFICATE[5].kind, p[5]);
    assert Fits(CERTIFICATE[6].kind, p[6]) && Fits(CERTIFICATE[7].kind, p[7]);
    assert FitAll(PROOF, p[7].parts);
    assert Fits(PROOF[0].kind, p[7].parts[0]) && Fits(PROOF[1].kind, p[7].parts[1]);
  }

  function FromParts(p: seq<Value>): Certificate
    requires FitAll(CERTIFICATE, p)
  {
    CertificateKinds(p);
    Certificate(p[0].s, p[1].s, p[2].s, if p[3].raw.Some? then Decode(p[3].raw.value) else Null, p[4].items, p[5].t, p[6].s,
                p[7].parts[0].s, p[7].parts[1].s)
  }

  /** Decoding a certificate; None is an error. Null is read as an object without members. */
  function FromRaw(raw: Raw): Option<Certificate> {
    if !raw.RObject? && !raw.RNull? then None
    else
      match ReadMembers(CERTIFICATE, Zeros(CERTIFICATE), if raw.RObject? then raw.members else [])
      case None => None
      case Some(parts) => Some(FromParts(parts))
  }

  lemma CertificateNamesAreLowerCase()
    ensures forall i | 0 <= i < |CERTIFICATE| :: Fold(CERTIFICATE[i].name) == CERTIFICATE[i].name
  {
    hide Fold;
    NoCapitals("spec_version");
    NoCapitals("id");
    NoCapitals("decision_id");
    NoCapitals("result");
    NoCapitals("artifact_hashes");
    NoCapitals("issued_at");
    NoCapitals("supersedes");
    NoCapitals("proof");
  }

  lemma ProofNames()
    ensures WellNamed(PROOF)
  {
    hide Fold;
    NoCapitals("algorithm");
    NoCapitals("digest");
    assert "algorithm"[0] == 'a' && "digest"[0] == 'd';
  }

  lemma CertificateNames()
    ensures WellNamed(CERTIFICATE) && WellNamed(PROOF)
  {
    hide Fold;
    CertificateNamesAreLowerCase();
    ProofNames();
    assert "spec_version"[1] == 'p' && "supersedes"[1] == 'u' && "id"[0] == 'i';
  }

  // ---- Which texts are read as a given certificate

  lemma MembersFold(c: Certificate, key: string)
    requires key in ToJson(c).members
    ensures Fold(key) == key && exists i | 0 <= i < |CERTIFICATE| :: CERTIFICATE[i].name == key
  {
    hide Fold;
    CertificateNames();
    assert CERTIFICATE[0].name == "spec_version" && CERTIFICATE[1].name == "id" && CERTIFICATE[2].name == "decision_id";
    assert CERTIFICATE[3].name == "result" && CERTIFICATE[4].name == "artifact_hashes" && CERTIFICATE[5].name == "issued_at";
    assert CERTIFICATE[6].name == "supersedes" && CERTIFICATE[7].name == "proof";
  }

  lemma {:induction false} AllFold(members: seq<Member>, c: Certificate)
    requires DecodeMembers(members) == ToJson(c).members
    ensures forall key | key in DecodeMembers(members) :: Fold(key) == key
  {
    hide Fold, ToJson, DecodeMembers;
    forall key | key in DecodeMembers(members) ensures Fold(key) == key {
      MembersFold(c, key);
    }
  }

  lemma {:induction false} TextRead(fields: seq<Field>, parts: seq<Value>, members: seq<Member>, i: nat, text: string)
    requires WellNamed(fields) && FitAll(fields, parts) && i < |fields| && ReadMembers(fields, parts, members).Some?
    requires forall key | key in DecodeMembers(members) :: Fold(key) == key
    requires fields[i].kind.StringKind? && fields[i].name in DecodeMembers(members)
    requires DecodeMembers(members)[fields[i].name] == String(text)
    ensures ReadMembers(fields, parts, members).value[i] == Str(text)
  {
    hide ReadMembers, DecodeMembers, WellNamed, FitAll;
    var _, last := LastReads(fields, parts, members, i);
    assert last == RString(text);
  }

  lemma {:induction false} ProofRead(c: Certificate, held: Value, raw: Raw)
    requires Fits(StructKind(PROOF), held) && Decode(raw) == ProofJson(c) && Read(StructKind(PROOF), held, raw).Some?
    ensures Read(StructKind(PROOF), held, raw) == Some(Record([Str(c.algorithm), Str(c.digest)]))
  {
    hide Fold;
    CertificateNames();
    assert raw.RObject?;
    var members := raw.members;
    assert DecodeMembers(members) == ProofJson(c).members;
    assert PROOF[0].name == "algorithm" && PROOF[1].name == "digest" && |PROOF| == 2;
    assert FitAll(PROOF, held.parts);
    TextRead(PROOF, held.parts, members, 0, c.algorithm);
    TextRead(PROOF, held.parts, members, 1, c.digest);
    assert ReadMembers(PROOF, held.parts, members).value == [Str(c.algorithm), Str(c.digest)];
  }

  lemma {:induction false} ArtifactsRead(artifacts: Option<seq<string>>, held: Value, raw: Raw)
    requires held.List? && Decode(raw) == ArtifactsJson(artifacts)
    ensures Read(ListKind, held, raw).Some? && Read(ListKind, held, raw).value.items == artifacts
  {
    if artifacts.Some? {
      assert raw.RArray? && |raw.items| == |artifacts.value|;
      forall i | 0 <= i < |raw.items| ensures raw.items[i] == RString(artifacts.value[i]) {
        assert Decode(raw).items[i] == Decode(raw.items[i]);
        assert ArtifactsJson(artifacts).items[i] == String(artifacts.value[i]);
      }
      assert Read(ListKind, held, raw).value.items.value == artifacts.value;
    }
  }

  /** Of a readable text with a certificate's JSON value, each member is read back. */
  lemma {:induction false} TextsRead(members: seq<Member>, c: Certificate)
    requires DecodeMembers(members) == ToJson(c).members && ReadMembers(CERTIFICATE, Zeros(CERTIFICATE), members).Some?
    ensures var p := ReadMembers(CERTIFICATE, Zeros(CERTIFICATE), members).value;
            p[0] == Str(c.specVersion) && p[1] == Str(c.id) && p[2] == Str(c.decision) && p[6] == Str(c.supersedes)
  {
    hide Fold, ReadMembers, DecodeMembers, WellNamed;
    CertificateNames();
    AllFold(members, c);
    TextRead(CERTIFICATE, Zeros(CERTIFICATE), members, 0, c.specVersion);
    TextRead(CERTIFICATE, Zeros(CERTIFICATE), members, 1, c.id);
    TextRead(CERTIFICATE, Zeros(CERTIFICATE), members, 2, c.decision);
    SupersedesRead(members, c);
  }

  lemma {:induction false} SupersedesRead(members: seq<Member>, c: Certificate)
    requires DecodeMembers(members) == ToJson(c).members && ReadMembers(CERTIFICATE, Zeros(CERTIFICATE), members).Some?
    ensures ReadMembers(CERTIFICATE, Zeros(CERTIFICATE), members).value[6] == Str(c.supersedes)
  {
    hide Fold, ReadMembers, DecodeMembers, WellNamed;
    CertificateNames();
    AllFold(members, c);
    if c.supersedes != "" {
      TextRead(CERTIFICATE, Zeros(CERTIFICATE), members, 6, c.supersedes);
    } else {
      LastToldIsDecoded(members, "supersedes");
      ReadMembersEach(CERTIFICATE, Zeros(CERTIFICATE), members, 6);
    }
  }

  lemma {:induction false} OthersRead(members: seq<Member>, c: Certificate)
    requires DecodeMembers(members) == ToJson(c).members && ReadMembers(CERTIFICATE, Zeros(CERTIFICATE), members).Some?
    ensures var p := ReadMembers(CERTIFICATE, Zeros(CERTIFICATE), members).value;
            p[3].Message? && p[3].raw.Some? && Decode(p[3].raw.value) == c.result && p[5] == Time(c.issuedAt)
  {
    hide Fold, ReadMembers, DecodeMembers, WellNamed, Decimal;
    CertificateNames();
    AllFold(members, c);
    var _, result := LastReads(CERTIFICATE, Zeros(CERTIFICATE), members, 3);
    var _, time := LastReads(CERTIFICATE, Zeros(CERTIFICATE), members, 5);
    assert time == RString(Decimal(c.issuedAt));
    DigitsValueUndoesDecimal(c.issuedAt);
  }

  lemma {:induction false} NestedRead(members: seq<Member>, c: Certificate)
    requires DecodeMembers(members) == ToJson(c).members && ReadMembers(CERTIFICATE, Zeros(CERTIFICATE), members).Some?
    ensures var p := ReadMembers(CERTIFICATE, Zeros(CERTIFICATE), members).value;
            p[4].List? && p[4].items == c.artifacts && p[7] == Record([Str(c.algorithm), Str(c.digest)])
  {
    hide Fold, ReadMembers, DecodeMembers, WellNamed, Decimal, ProofJson, ArtifactsJson, Read, Decode;
    CertificateNames();
    AllFold(members, c);
    var held, artifacts := LastReads(CERTIFICATE, Zeros(CERTIFICATE), members, 4);
    ArtifactsRead(c.artifacts, held, artifacts);
    var earlier, proof := LastReads(CERTIFICATE, Zeros(CERTIFICATE), members, 7);
    ProofRead(c, earlier, proof);
  }

  /** A text with a certificate's JSON value is read as that certificate exactly when all its
      members are of their fields' types; only members that are written over can fail that. */
  lemma {:induction false} TextReadsBack(raw: Raw, c: Certificate)
    requires Decode(raw) == ToJson(c)
    ensures FromRaw(raw) == Some(c) <==> Typed(StructKind(CERTIFICATE), raw)
  {
    hide Fold, ReadMembers, DecodeMembers, FromParts, Zeros;
    assert raw.RObject? && DecodeMembers(raw.members) == ToJson(c).members;
    ReadMembersAcceptsTyped(CERTIFICATE, Zeros(CERTIFICATE), raw.members);
    if FromRaw(raw).Some? {
      PartsRead(raw.members, c);
    }
  }

  lemma {:induction false} PartsRead(members: seq<Member>, c: Certificate)
    requires DecodeMembers(members) == ToJson(c).members && ReadMembers(CERTIFICATE, Zeros(CERTIFICATE), members).Some?
    ensures FromParts(ReadMembers(CERTIFICATE, Zeros(CERTIFICATE), members).value) == c
  {
    hide Fold, ReadMembers, DecodeMembers, ToJson, Zeros;
    TextsRead(members, c);
    OthersRead(members, c);
    NestedRead(members, c);
  }

  // ---- Sealing and checking

  function Digest(c: Certificate, sha: Protocol.Sha): string {
    sha(Canonical(Encode(ToJson(c.(digest := "")))))
  }

  function Seal(decision: string, result: Json, artifacts: Option<seq<string>>, issuedAt: nat, sha: Protocol.Sha): Certificate {
    var unsigned := Certificate(Protocol.VERSION, "proof-" + decision, decision, result, artifacts, issuedAt, "", ALGORITHM, "");
    unsigned.(digest := Digest(unsigned, sha))
  }

  /** `portableCertificate`: the caller's fields pass through, the digest is the certificate's
      own, and a text with its JSON value is accepted back whole exactly when it is typed, the
      decision has a name, the issue time is set and the digest is not empty. */
  method PortableCertificate(decision: string, result: Json, artifacts: Option<seq<string>>, issuedAt: nat, sha: Protocol.Sha)
      returns (certificate: Certificate)
    ensures certificate.decision == decision && certificate.result == result && certificate.artifacts == artifacts
    ensures certificate.issuedAt == issuedAt && certificate.algorithm == "SHA-256" && certificate.supersedes == ""
    ensures certificate.specVersion == "0.1" && certificate.id == "proof-" + decision
    ensures certificate.digest == Digest(certificate, sha)
    ensures forall raw | Decode(raw) == ToJson(certificate) ::
              Check(raw, sha) == Accepted(certificate)
              <==> Typed(StructKind(CERTIFICATE), raw) && decision != "" && issuedAt != 0 && certificate.digest != ""
    ensures certificate == Seal(decision, result, artifacts, issuedAt, sha)
  {
    certificate := Certificate(Protocol.VERSION, "proof-" + decision, decision, result, artifacts, issuedAt, "", ALGORITHM, "");
    var digest := sha(Canonical(Encode(ToJson(certificate))));
    assert certificate == certificate.(digest := "");
    certificate := certificate.(digest := digest);
    forall raw | Decode(raw) == ToJson(certificate)
      ensures Check(raw, sha) == Accepted(certificate)
              <==> Typed(StructKind(CERTIFICATE), raw) && decision != "" && issuedAt != 0 && digest != ""
    {
      CheckReads(raw, certificate, sha);
    }
  }

  datatype Checked = Undecodable | Incomplete | Mismatch | Accepted(certificate: Certificate)

  /** `validatePortableCertificate`: blank the digest, hash again, compare, restore. */
  method ValidatePortableCertificate(raw: Raw, sha: Protocol.Sha) returns (checked: Checked)
    ensures checked == Check(raw, sha)
  {
    var decoded := FromRaw(raw);
    if decoded.None? {
      return Undecodable;
    }
    var certificate := decoded.value;
    if certificate.decision == "" || certificate.algorithm != ALGORITHM || certificate.digest == "" || certificate.issuedAt == 0 {
      return Incomplete;
    }
    var expected := certificate.digest;
    certificate := certificate.(digest := "");
    var actual := sha(Canonical(Encode(ToJson(certificate))));
    certificate := certificate.(digest := expected);
    if actual != expected {
      return Mismatch;
    }
    return Accepted(certificate);
  }

  function Check(raw: Raw, sha: Protocol.Sha): Checked {
    match FromRaw(raw)
    case None => Undecodable
    case Some(c) =>
      if c.decision == "" || c.algorithm != ALGORITHM || c.digest == "" || c.issuedAt == 0 then Incomplete
      else if Digest(c, sha) != c.digest then Mismatch
      else Accepted(c)
  }

  /** A text is accepted exactly when it decodes to a certificate with a decision, an issue
      time, the one algorithm, and the hash of itself with the digest left empty. */
  lemma AcceptedExactly(raw: Raw, sha: Protocol.Sha)
    ensures Check(raw, sha).Accepted? <==>
              && FromRaw(raw).Some?
              && var c := FromRaw(raw).value;
                 && c.decision != "" && c.issuedAt != 0 && c.algorithm == "SHA-256" && c.digest != ""
                 && c.digest == sha(Canonical(Encode(ToJson(c.(digest := "")))))
    ensures Check(raw, sha).Accepted? ==> Check(raw, sha).certificate == FromRaw(raw).value
    ensures Check(raw, sha) == Undecodable <==> FromRaw(raw).None?
    ensures Check(raw, sha) == Mismatch ==>
              var c := FromRaw(raw).value;
              c.decision != "" && c.algorithm == "SHA-256" && c.digest != "" && c.issuedAt != 0
  {
    hide FromRaw, ToJson, Canonical;
  }

  /** The members of a certificate's JSON value, by the names and types of the wire format. */
  lemma CertificateMembers(c: Certificate)
    ensures var m := ToJson(c).members;
            && ToJson(c).Object? && m.Keys == {"spec_version", "id", "decision_id", "result", "artifact_hashes", "issued_at", "proof"}
                                              + (if c.supersedes == "" then {} else {"supersedes"})
            && m["spec_version"] == String(c.specVersion) && m["id"] == String(c.id) && m["decision_id"] == String(c.decision)
            && m["result"] == c.result && m["issued_at"] == String(Decimal(c.issuedAt))
            && m["proof"] == Object(map["algorithm" := String(c.algorithm), "digest" := String(c.digest)])
            && (c.supersedes != "" ==> m["supersedes"] == String(c.supersedes))
            && (c.artifacts.None? ==> m["artifact_hashes"] == Null)
            && (c.artifacts.Some? ==>
                  && m["artifact_hashes"].Array? && |m["artifact_hashes"].items| == |c.artifacts.value|
                  && forall i | 0 <= i < |c.artifacts.value| :: m["artifact_hashes"].items[i] == String(c.artifacts.value[i]))
  {
    hide Decimal;
  }

  lemma {:induction false} CheckReads(raw: Raw, c: Certificate, sha: Protocol.Sha)
    requires Decode(raw) == ToJson(c) && c.algorithm == ALGORITHM && c.digest == Digest(c, sha)
    ensures Check(raw, sha) == Accepted(c)
            <==> Typed(StructKind(CERTIFICATE), raw) && c.decision != "" && c.issuedAt != 0 && c.digest != ""
  {
    hide FromRaw, Decode, ToJson, Typed;
    TextReadsBack(raw, c);
  }

  /** A sealed certificate, delivered as a text with its JSON value, is accepted and read back
      whole exactly when the text is typed, the decision has a name and the issue time is set. */
  lemma {:induction false} SealThenCheck(decision: string, result: Json, artifacts: Option<seq<string>>, issuedAt: nat, sha: Protocol.Sha, raw: Raw)
    requires forall text :: sha(text) != ""
    requires Decode(raw) == ToJson(Seal(decision, result, artifacts, issuedAt, sha))
    ensures Check(raw, sha) == Accepted(Seal(decision, result, artifacts, issuedAt, sha))
            <==> Typed(StructKind(CERTIFICATE), raw) && decision != "" && issuedAt != 0
  {
    var sealed_ := Seal(decision, result, artifacts, issuedAt, sha);
    assert sealed_.(digest := "") == Certificate(Protocol.VERSION, "proof-" + decision, decision, result, artifacts, issuedAt, "", ALGORITHM, "");
    CheckReads(raw, sealed_, sha);
  }

  /** Under one digest only one certificate is ever accepted: changing any field of an
      accepted certificate and keeping its digest makes the check fail. */
  lemma DigestFixesTheCertificate(a: Raw, b: Raw, sha: Protocol.Sha)
    requires Protocol.CollisionFree(sha)
    requires Check(a, sha).Accepted? && Check(b, sha).Accepted?
    requires Check(a, sha).certificate.digest == Check(b, sha).certificate.digest
    ensures Check(a, sha).certificate == Check(b, sha).certificate
  {
    hide ToJson;
    var c, d := Check(a, sha).certificate, Check(b, sha).certificate;
    var c0, d0 := c.(digest := ""), d.(digest := "");
    assert Canonical(Encode(ToJson(c0))) == Canonical(Encode(ToJson(d0)));
    CanonicalDecidesEquality(Encode(ToJson(c0)), Encode(ToJson(d0)));
    DecodeUndoesEncode(ToJson(c0));
    DecodeUndoesEncode(ToJson(d0));
    StructSurvivesJson(c0, d0);
    assert c == c0.(digest := c.digest) && d == d0.(digest := d.digest);
  }

  /** Texts in which no name is repeated are typed. */
  lemma {:induction false} UnrepeatedIsTyped(raw: Raw, c: Certificate)
    requires Decode(raw) == ToJson(c) && raw.RObject? && DistinctKeys(raw.members)
    requires forall m | m in raw.members && m.key == "proof" && m.value.RObject? :: DistinctKeys(m.value.members)
    ensures Typed(StructKind(CERTIFICATE), raw)
  {
    hide Fold, DecodeMembers, Typed, TypedMember, ToJson;
    forall m | m in raw.members ensures TypedMember(CERTIFICATE, m) {
      SingleMember(raw.members, m);
      MembersAreTyped(c, m);
    }
    TypedObject(CERTIFICATE, raw);
  }

  lemma {:induction false} TypedObject(fields: seq<Field>, raw: Raw)
    requires raw.RObject? && forall m | m in raw.members :: TypedMember(fields, m)
    ensures Typed(StructKind(fields), raw)
  {
  }

  lemma {:induction false} SingleMember(members: seq<Member>, m: Member)
    requires DistinctKeys(members) && m in members
    ensures m.key in DecodeMembers(members) && DecodeMembers(members)[m.key] == Decode(m.value)
  {
    LookupIsLast(members, m.key);
    var k :| 0 <= k < |members| && members[k] == m;
    assert LastWith(members, m.key) == Some(k);
  }

  lemma {:induction false} MembersAreTyped(c: Certificate, m: Member)
    requires m.key in ToJson(c).members && Decode(m.value) == ToJson(c).members[m.key]
    requires m.key == "proof" && m.value.RObject? ==> DistinctKeys(m.value.members)
    ensures TypedMember(CERTIFICATE, m)
  {
    hide Fold, Typed, FieldFor;
    MembersFold(c, m.key);
    CertificateNames();
    var i :| 0 <= i < |CERTIFICATE| && CERTIFICATE[i].name == m.key;
    FieldForIs(CERTIFICATE, m.key, i);
    FieldIsTyped(c, m.value, i);
  }

  lemma {:induction false} FieldIsTyped(c: Certificate, raw: Raw, i: nat)
    requires i < |CERTIFICATE| && CERTIFICATE[i].name in ToJson(c).members
    requires Decode(raw) == ToJson(c).members[CERTIFICATE[i].name]
    requires i == 7 && raw.RObject? ==> DistinctKeys(raw.members)
    ensures Typed(CERTIFICATE[i].kind, raw)
  {
    hide Fold, DecodeMembers;
    match i
    case 4 => ArtifactsRead(c.artifacts, List(None, []), raw); ReadAcceptsTyped(ListKind, List(None, []), raw);
    case 5 => DigitsValueUndoesDecimal(c.issuedAt);
    case 7 => ProofIsTyped(c, raw);
    case _ =>
  }

  lemma {:induction false} ProofIsTyped(c: Certificate, raw: Raw)
    requires Decode(raw) == ProofJson(c) && raw.RObject? && DistinctKeys(raw.members)
    ensures Typed(StructKind(PROOF), raw)
  {
    hide Fold, DecodeMembers;
    forall m | m in raw.members ensures TypedMember(PROOF, m) {
      SingleMember(raw.members, m);
    }
  }

  /** A member of the wrong type is refused even when a later one of its name counts: the
      JSON value is the same, but the text is not accepted. */
  lemma {:induction false} WrittenOverIsRefused(members: seq<Member>, c: Certificate, sha: Protocol.Sha)
    requires Decode(RObject(members)) == ToJson(c)
    ensures var changed := RObject([Member("id", RNumber("1"))] + members);
            Decode(changed) == ToJson(c) && Check(changed, sha) == Undecodable
  {
    hide Fold, DecodeMembers, Zeros, FromParts, Read;
    var first := Member("id", RNumber("1"));
    var changed := [first] + members;
    DecodedOver(first, members);
    assert map[first.key := Decode(first.value)] + DecodeMembers(members) == DecodeMembers(members);
    NoCapitals("id");
    CertificateNames();
    FieldForIs(CERTIFICATE, "id", 1);
    assert first in changed && !TypedMember(CERTIFICATE, first);
    ReadMembersAcceptsTyped(CERTIFICATE, Zeros(CERTIFICATE), changed);
  }

  lemma {:induction false} DecodedOver(first: Member, rest: seq<Member>)
    ensures DecodeMembers([first] + rest) == map[first.key := Decode(first.value)] + DecodeMembers(rest)
  {
    if rest == [] {
      assert [first] + rest == [first] && [first][..0] == [];
    } else {
      DecodedOver(first, rest[..|rest| - 1]);
      assert ([first] + rest)[..|rest|] == [first] + rest[..|rest| - 1];
    }
  }

  /** A case variant counts as the field itself: adding another decision's ID in capitals to
      an accepted text makes the check fail. */
  lemma {:induction false} VariantIsRefused(members: seq<Member>, other: string, sha: Protocol.Sha)
    requires Protocol.CollisionFree(sha)
    requires Check(RObject(members), sha).Accepted? && Check(RObject(members), sha).certificate.decision != other
    ensures !Check(RObject(members + [Member("DECISION_ID", RString(other))]), sha).Accepted?
  {
    hide Fold, Digest, ReadMembers;
    var raw, changed := RObject(members), RObject(members + [Member("DECISION_ID", RString(other))]);
    DecisionReplaced(members, other);
    if Check(changed, sha).Accepted? {
      DigestFixesTheCertificate(raw, changed, sha);
    }
  }

  lemma {:induction false} DecisionReplaced(members: seq<Member>, other: string)
    requires FromRaw(RObject(members)).Some?
    ensures FromRaw(RObject(members + [Member("DECISION_ID", RString(other))]))
            == Some(FromRaw(RObject(members)).value.(decision := other))
  {
    hide Fold, Zeros;
    var last := Member("DECISION_ID", RString(other));
    CertificateNames();
    UpperCase("DECISION_ID", "decision_id");
    FieldForIs(CERTIFICATE, "DECISION_ID", 2);
    assert (members + [last])[..|members|] == members;
    var parts := ReadMembers(CERTIFICATE, Zeros(CERTIFICATE), members).value;
    assert ReadMembers(CERTIFICATE, Zeros(CERTIFICATE), members + [last]) == Some(parts[2 := Str(other)]);
  }
}
