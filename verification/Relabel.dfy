/** The fresh-ID rewrite of `Service.Analyze` (apps/control-plane/internal/service/service.go). */
module Relabel {
  import opened Text
  import opened Domain
  import opened Store
  import SupportScore

  // ---- The rewrite as a function

  function Mapped(ids: map<string, string>, id: string): string {
    if id in ids && ids[id] != "" then ids[id] else id
  }

  function MappedAll(ids: map<string, string>, list: seq<string>): seq<string> {
    seq(|list|, i requires 0 <= i < |list| => Mapped(ids, list[i]))
  }

  /** `idMap`: evidence first, then claims; of equal original IDs the last one counts. */
  function EvidenceIds(items: seq<Evidence>, n: nat): map<string, string> {
    if items == [] then map[]
    else
      var last := |items| - 1;
      var front := EvidenceIds(items[..last], n);
      if items[last].id == "" then front else front[items[last].id := NewId("evd", n + last)]
  }

  function ClaimIdsOnto(ids: map<string, string>, claims: seq<Claim>, n: nat): map<string, string> {
    if claims == [] then ids
    else
      var last := |claims| - 1;
      var front := ClaimIdsOnto(ids, claims[..last], n);
      if claims[last].id == "" then front else front[claims[last].id := NewId("clm", n + last)]
  }

  function IdMap(a: Analysis, n: nat): map<string, string> {
    ClaimIdsOnto(EvidenceIds(a.evidence, n), a.claims, n)
  }

  predicate Decided(c: Claim) {
    c.state.Supported? || c.state.Contradicted?
  }

  function FirstDecided(claims: seq<Claim>): (at: Option<nat>)
    ensures at.Some? ==> at.value < |claims| && Decided(claims[at.value])
    ensures at.Some? ==> forall i | 0 <= i < at.value :: !Decided(claims[i])
    ensures at.None? ==> forall i | 0 <= i < |claims| :: !Decided(claims[i])
  {
    if claims == [] then None
    else
      var front, last := claims[..|claims| - 1], claims[|claims| - 1];
      match FirstDecided(front)
      case Some(i) => Some(i)
      case None => if Decided(last) then Some(|claims| - 1) else None
  }

  /** The claim that is bound to all evidence when the analyzer proposed no relation. The
      code tests for "no relation yet" inside its loop, so only the first decided claim is. */
  function AutoBound(a: Analysis): Option<nat> {
    if a.relations != [] || a.evidence == [] then None else FirstDecided(a.claims)
  }

  function NewEvidenceIds(a: Analysis, n: nat): seq<string> {
    seq(|a.evidence|, i requires 0 <= i < |a.evidence| => NewId("evd", n + i))
  }

  function NewEvidence(e: Evidence, i: nat, n: nat, now: int): Evidence {
    e.(id := NewId("evd", n + i), observedAt := if e.observedAt == 0 then now else e.observedAt)
  }

  function Prepared(c: Claim, j: nat, n: nat, now: int, d: string): Claim {
    c.(id := NewId("clm", n + j), decision := d, createdAt := now,
       importance := if c.importance != "" then c.importance else if c.critical then "critical" else "supporting",
       support := if c.support.semantics == "" then c.support.(semantics := SupportScore.SEMANTICS) else c.support)
  }

  /** A claim before its evidence list is rewritten. */
  function NewClaim(a: Analysis, j: nat, n: nat, now: int, d: string): Claim
    requires j < |a.claims|
  {
    var c := Prepared(a.claims[j], j, n, now, d);
    if AutoBound(a) == Some(j) then c.(evidence := c.evidence + NewEvidenceIds(a, n)) else c
  }

  function AutoRelations(a: Analysis, j: nat, n: nat): seq<Relation>
    requires j < |a.claims|
  {
    var c := a.claims[j];
    seq(|a.evidence|, i requires 0 <= i < |a.evidence| =>
      Relation(NewId("rel", n + i), NewId("evd", n + i), NewId("clm", n + j),
               if c.state.Contradicted? then Contradicts else Supports, c.justification))
  }

  function Proposed(a: Analysis, n: nat): seq<Relation> {
    match AutoBound(a)
    case None => a.relations
    case Some(j) => AutoRelations(a, j, n)
  }

  function NewRelation(r: Relation, ids: map<string, string>, k: nat, n: nat): Relation {
    r.(from := Mapped(ids, r.from), to := Mapped(ids, r.to), id := if r.id == "" then NewId("rel", n + k) else r.id)
  }

  function Relabelled(a: Analysis, n: nat, now: int, d: string): Analysis {
    var ids := IdMap(a, n);
    var proposed := Proposed(a, n);
    Analysis(
      seq(|a.claims|, j requires 0 <= j < |a.claims| =>
        var c := NewClaim(a, j, n, now, d); c.(evidence := MappedAll(ids, c.evidence))),
      seq(|a.evidence|, i requires 0 <= i < |a.evidence| => NewEvidence(a.evidence[i], i, n, now)),
      seq(|proposed|, k requires 0 <= k < |proposed| => NewRelation(proposed[k], ids, k, n)),
      seq(|a.assumptions|, i requires 0 <= i < |a.assumptions| =>
        a.assumptions[i].(id := NewId("asm", n + i), decision := d, claim := Mapped(ids, a.assumptions[i].claim))),
      seq(|a.unknowns|, i requires 0 <= i < |a.unknowns| => a.unknowns[i].(id := NewId("unk", n + i), decision := d)))
  }

  /** How many IDs one rewrite may draw. */
  function Drawn(a: Analysis): nat {
    |a.claims| + |a.evidence| + |a.relations| + |a.assumptions| + |a.unknowns|
  }

  // ---- The loops

  method RelabelEvidence(a: Analysis, n: nat, now: int) returns (items: seq<Evidence>, ids: map<string, string>)
    ensures |items| == |a.evidence| && forall i | 0 <= i < |items| :: items[i] == NewEvidence(a.evidence[i], i, n, now)
    ensures ids == EvidenceIds(a.evidence, n)
  {
    items, ids := a.evidence, map[];
    for i := 0 to |items|
      invariant |items| == |a.evidence|
      invariant forall k | 0 <= k < |items| :: items[k] == if k < i then NewEvidence(a.evidence[k], k, n, now) else a.evidence[k]
      invariant ids == EvidenceIds(a.evidence[..i], n)
    {
      assert a.evidence[..i + 1][..i] == a.evidence[..i];
      var original := items[i].id;
      items := items[i := items[i].(id := NewId("evd", n + i))];
      if original != "" {
        ids := ids[original := items[i].id];
      }
      if items[i].observedAt == 0 {
        items := items[i := items[i].(observedAt := now)];
      }
    }
    assert a.evidence[..|items|] == a.evidence;
  }

  lemma FirstDecidedSoFar(claims: seq<Claim>, i: nat)
    requires i < |claims|
    ensures FirstDecided(claims[..i]).Some? ==> FirstDecided(claims) == FirstDecided(claims[..i])
    ensures FirstDecided(claims[..i]).None? ==> (FirstDecided(claims) == Some(i) <==> Decided(claims[i]))
  {
    hide FirstDecided;
    assert forall k | 0 <= k < i :: claims[..i][k] == claims[k];
  }

  /** The relations after the first j claims. */
  function BoundSoFar(a: Analysis, j: nat, n: nat): seq<Relation>
    requires j <= |a.claims|
  {
    if a.relations != [] || a.evidence == [] then a.relations
    else
      match FirstDecided(a.claims[..j])
      case None => []
      case Some(first) => assert a.claims[..j][first] == a.claims[first]; AutoRelations(a, first, n)
  }

  /** The guard of the inner loop picks out the automatically bound claim. */
  lemma BindingStep(a: Analysis, j: nat, n: nat)
    requires j < |a.claims|
    ensures var binds := |BoundSoFar(a, j, n)| == 0 && Decided(a.claims[j]) && |a.evidence| > 0;
            && (binds <==> AutoBound(a) == Some(j))
            && BoundSoFar(a, j + 1, n) == if binds then AutoRelations(a, j, n) else BoundSoFar(a, j, n)
  {
    assert a.claims[..j + 1][..j] == a.claims[..j];
    FirstDecidedSoFar(a.claims, j);
  }

  method RelabelClaims(a: Analysis, items: seq<Evidence>, start: map<string, string>, n: nat, now: int, d: string)
      returns (claims: seq<Claim>, relations: seq<Relation>, ids: map<string, string>)
    requires |items| == |a.evidence| && forall i | 0 <= i < |items| :: items[i].id == NewId("evd", n + i)
    ensures |claims| == |a.claims| && forall j | 0 <= j < |claims| :: claims[j] == NewClaim(a, j, n, now, d)
    ensures relations == Proposed(a, n)
    ensures ids == ClaimIdsOnto(start, a.claims, n)
  {
    hide NewClaim, AutoRelations, FirstDecided, Decimal;
    claims, relations, ids := a.claims, a.relations, start;
    for j := 0 to |claims|
      invariant |claims| == |a.claims|
      invariant forall k | 0 <= k < j :: claims[k] == NewClaim(a, k, n, now, d)
      invariant forall k | j <= k < |claims| :: claims[k] == a.claims[k]
      invariant ids == ClaimIdsOnto(start, a.claims[..j], n)
      invariant relations == BoundSoFar(a, j, n)
    {
      assert a.claims[..j + 1][..j] == a.claims[..j];
      var original := claims[j].id;
      var c;
      c, relations := RelabelClaim(a, j, items, relations, n, now, d);
      if original != "" {
        ids := ids[original := c.id];
      }
      claims := claims[j := c];
    }
    assert a.claims[..|claims|] == a.claims;
  }

  /** One round of the claim loop. */
  method RelabelClaim(a: Analysis, j: nat, items: seq<Evidence>, before: seq<Relation>, n: nat, now: int, d: string)
      returns (c: Claim, relations: seq<Relation>)
    requires j < |a.claims| && before == BoundSoFar(a, j, n)
    requires |items| == |a.evidence| && forall i | 0 <= i < |items| :: items[i].id == NewId("evd", n + i)
    ensures c == NewClaim(a, j, n, now, d) && c.id == NewId("clm", n + j)
    ensures relations == BoundSoFar(a, j + 1, n)
  {
    hide NewId, AutoBound, BoundSoFar, KeysOf;
    BindingStep(a, j, n);
    relations := before;
    c := PrepareClaim(a.claims[j], j, n, now, d);
    if |relations| == 0 && (c.state.Supported? || c.state.Contradicted?) && |items| > 0 {
      c, relations := BindEverything(c, items, n);
      assert KeysOf(items, EvidenceId) == NewEvidenceIds(a, n);
      assert relations == AutoRelations(a, j, n);
    }
  }

  method PrepareClaim(claim: Claim, j: nat, n: nat, now: int, d: string) returns (c: Claim)
    ensures c == Prepared(claim, j, n, now, d)
  {
    c := claim.(id := NewId("clm", n + j));
    c := c.(decision := d, createdAt := now);
    if c.importance == "" {
      c := c.(importance := if c.critical then "critical" else "supporting");
    }
    if c.support.semantics == "" {
      c := c.(support := c.support.(semantics := SupportScore.SEMANTICS));
    }
  }

  /** The inner loop: bind one claim to all evidence. */
  method BindEverything(claim: Claim, items: seq<Evidence>, n: nat) returns (c: Claim, relations: seq<Relation>)
    ensures c == claim.(evidence := c.evidence)
    ensures c.evidence == claim.evidence + KeysOf(items, EvidenceId)
    ensures |relations| == |items|
    ensures forall i | 0 <= i < |items| ::
              relations[i] == Relation(NewId("rel", n + i), items[i].id, claim.id,
                                       if claim.state.Contradicted? then Contradicts else Supports, claim.justification)
  {
    c, relations := claim, [];
    for i := 0 to |items|
      invariant c == claim.(evidence := c.evidence)
      invariant c.evidence == claim.evidence + KeysOf(items[..i], EvidenceId)
      invariant |relations| == i
      invariant forall k | 0 <= k < i ::
                  relations[k] == Relation(NewId("rel", n + k), items[k].id, claim.id,
                                           if claim.state.Contradicted? then Contradicts else Supports, claim.justification)
    {
      assert KeysOf(items[..i + 1], EvidenceId) == KeysOf(items[..i], EvidenceId) + [items[i].id];
      c := c.(evidence := c.evidence + [items[i].id]);
      var kind := if c.state.Contradicted? then Contradicts else Supports;
      relations := relations + [Relation(NewId("rel", n + i), items[i].id, c.id, kind, c.justification)];
    }
    assert items[..|items|] == items;
  }

  method RewriteRelations(proposed: seq<Relation>, ids: map<string, string>, n: nat) returns (relations: seq<Relation>)
    ensures |relations| == |proposed|
    ensures forall k | 0 <= k < |proposed| :: relations[k] == NewRelation(proposed[k], ids, k, n)
  {
    relations := proposed;
    for k := 0 to |relations|
      invariant |relations| == |proposed|
      invariant forall i | 0 <= i < |relations| :: relations[i] == if i < k then NewRelation(proposed[i], ids, i, n) else proposed[i]
    {
      var r := relations[k];
      r := r.(from := Mapped(ids, r.from));
      r := r.(to := Mapped(ids, r.to));
      if r.id == "" {
        r := r.(id := NewId("rel", n + k));
      }
      relations := relations[k := r];
    }
  }

  method RewriteLists(staged: seq<Claim>, ids: map<string, string>) returns (claims: seq<Claim>)
    ensures |claims| == |staged|
    ensures forall j | 0 <= j < |staged| :: claims[j] == staged[j].(evidence := MappedAll(ids, staged[j].evidence))
  {
    claims := staged;
    for j := 0 to |claims|
      invariant |claims| == |staged|
      invariant forall i | 0 <= i < |claims| ::
                  claims[i] == if i < j then staged[i].(evidence := MappedAll(ids, staged[i].evidence)) else staged[i]
    {
      var list := claims[j].evidence;
      for k := 0 to |list|
        invariant |list| == |staged[j].evidence|
        invariant forall i | 0 <= i < |list| :: list[i] == if i < k then Mapped(ids, staged[j].evidence[i]) else staged[j].evidence[i]
      {
        list := list[k := Mapped(ids, list[k])];
      }
      assert list == MappedAll(ids, staged[j].evidence);
      claims := claims[j := claims[j].(evidence := list)];
    }
  }

  method RelabelAnalysis(a: Analysis, n: nat, now: int, d: string) returns (b: Analysis)
    ensures b == Relabelled(a, n, now, d)
  {
    var items, ids := RelabelEvidence(a, n, now);
    var claims, relations;
    claims, relations, ids := RelabelClaims(a, items, ids, n, now, d);
    relations := RewriteRelations(relations, ids, n);
    claims := RewriteLists(claims, ids);
    var assumptions := RewriteAssumptions(a.assumptions, ids, n, d);
    var unknowns := RewriteUnknowns(a.unknowns, n, d);
    b := Analysis(claims, items, relations, assumptions, unknowns);
    RewrittenIsRelabelled(a, b, n, now, d);
  }

  lemma RewrittenIsRelabelled(a: Analysis, b: Analysis, n: nat, now: int, d: string)
    requires |b.claims| == |a.claims|
    requires forall j | 0 <= j < |a.claims| ::
               var c := NewClaim(a, j, n, now, d); b.claims[j] == c.(evidence := MappedAll(IdMap(a, n), c.evidence))
    requires |b.evidence| == |a.evidence| && forall i | 0 <= i < |a.evidence| :: b.evidence[i] == NewEvidence(a.evidence[i], i, n, now)
    requires |b.relations| == |Proposed(a, n)|
    requires forall k | 0 <= k < |b.relations| :: b.relations[k] == NewRelation(Proposed(a, n)[k], IdMap(a, n), k, n)
    requires b.assumptions == Relabelled(a, n, now, d).assumptions && b.unknowns == Relabelled(a, n, now, d).unknowns
    ensures b == Relabelled(a, n, now, d)
  {
    var r := Relabelled(a, n, now, d);
    assert b.claims == r.claims;
    assert b.evidence == r.evidence;
    assert b.relations == r.relations;
  }

  method RewriteAssumptions(before: seq<Assumption>, ids: map<string, string>, n: nat, d: string) returns (assumptions: seq<Assumption>)
    ensures assumptions == seq(|before|, i requires 0 <= i < |before| =>
                             before[i].(id := NewId("asm", n + i), decision := d, claim := Mapped(ids, before[i].claim)))
  {
    assumptions := before;
    for i := 0 to |assumptions|
      invariant |assumptions| == |before|
      invariant forall k | 0 <= k < i ::
                  assumptions[k] == before[k].(id := NewId("asm", n + k), decision := d, claim := Mapped(ids, before[k].claim))
      invariant forall k | i <= k < |before| :: assumptions[k] == before[k]
    {
      assumptions := assumptions[i := assumptions[i].(id := NewId("asm", n + i), decision := d,
                                                      claim := Mapped(ids, assumptions[i].claim))];
    }
  }

  method RewriteUnknowns(before: seq<Unknown>, n: nat, d: string) returns (unknowns: seq<Unknown>)
    ensures unknowns == seq(|before|, i requires 0 <= i < |before| => before[i].(id := NewId("unk", n + i), decision := d))
  {
    unknowns := before;
    for i := 0 to |unknowns|
      invariant |unknowns| == |before|
      invariant forall k | 0 <= k < i :: unknowns[k] == before[k].(id := NewId("unk", n + k), decision := d)
      invariant forall k | i <= k < |before| :: unknowns[k] == before[k]
    {
      unknowns := unknowns[i := unknowns[i].(id := NewId("unk", n + i), decision := d)];
    }
  }

  // ---- What the rewrite preserves

  ghost predicate DistinctOriginals(a: Analysis) {
    && (forall i | 0 <= i < |a.evidence| :: a.evidence[i].id != "")
    && (forall j | 0 <= j < |a.claims| :: a.claims[j].id != "")
    && DistinctKeys(a.evidence, EvidenceId) && DistinctKeys(a.claims, ClaimId)
    && (forall i, j | 0 <= i < |a.evidence| && 0 <= j < |a.claims| :: a.evidence[i].id != a.claims[j].id)
  }

  ghost predicate IsEvidence(a: Analysis, id: string) { HasKey(a.evidence, EvidenceId, id) }
  ghost predicate IsClaim(a: Analysis, id: string) { HasKey(a.claims, ClaimId, id) }

  /** Every reference points into the analysis itself. */
  ghost predicate Closed(a: Analysis) {
    && (forall k | 0 <= k < |a.relations| :: IsEvidence(a, a.relations[k].from) && IsClaim(a, a.relations[k].to))
    && (forall j, i | 0 <= j < |a.claims| && 0 <= i < |a.claims[j].evidence| :: IsEvidence(a, a.claims[j].evidence[i]))
    && (forall i | 0 <= i < |a.assumptions| :: a.assumptions[i].claim == "" || IsClaim(a, a.assumptions[i].claim))
  }

  lemma {:induction false} EvidenceIdsAt(items: seq<Evidence>, n: nat, i: nat)
    requires i < |items| && items[i].id != "" && DistinctKeys(items, EvidenceId)
    ensures items[i].id in EvidenceIds(items, n) && EvidenceIds(items, n)[items[i].id] == NewId("evd", n + i)
  {
    var last := |items| - 1;
    if i < last {
      assert items[..last][i] == items[i];
      assert EvidenceId(items[i]) != EvidenceId(items[last]);
      EvidenceIdsAt(items[..last], n, i);
    }
  }

  lemma {:induction false} ClaimIdsLeave(ids: map<string, string>, claims: seq<Claim>, n: nat, id: string)
    requires id in ids && forall j | 0 <= j < |claims| :: claims[j].id != id
    ensures id in ClaimIdsOnto(ids, claims, n) && ClaimIdsOnto(ids, claims, n)[id] == ids[id]
  {
    if claims != [] {
      ClaimIdsLeave(ids, claims[..|claims| - 1], n, id);
    }
  }

  lemma {:induction false} ClaimIdsAt(ids: map<string, string>, claims: seq<Claim>, n: nat, j: nat)
    requires j < |claims| && claims[j].id != "" && DistinctKeys(claims, ClaimId)
    ensures claims[j].id in ClaimIdsOnto(ids, claims, n) && ClaimIdsOnto(ids, claims, n)[claims[j].id] == NewId("clm", n + j)
  {
    var last := |claims| - 1;
    if j < last {
      assert claims[..last][j] == claims[j];
      assert ClaimId(claims[j]) != ClaimId(claims[last]);
      ClaimIdsAt(ids, claims[..last], n, j);
    }
  }

  /** Each original evidence ID is mapped to the new ID of its own evidence. */
  lemma EvidenceMapped(a: Analysis, n: nat, i: nat)
    requires DistinctOriginals(a) && i < |a.evidence|
    ensures Mapped(IdMap(a, n), a.evidence[i].id) == NewId("evd", n + i)
  {
    EvidenceIdsAt(a.evidence, n, i);
    ClaimIdsLeave(EvidenceIds(a.evidence, n), a.claims, n, a.evidence[i].id);
  }

  lemma ClaimMapped(a: Analysis, n: nat, j: nat)
    requires DistinctOriginals(a) && j < |a.claims|
    ensures Mapped(IdMap(a, n), a.claims[j].id) == NewId("clm", n + j)
  {
    ClaimIdsAt(EvidenceIds(a.evidence, n), a.claims, n, j);
  }

  /** Two graphs with the same shape: `rho` renames nodes one to one, and every edge, list
      and link of `b` is the renaming of the one in `a`. */
  ghost predicate Isomorphic(a: Analysis, b: Analysis, rho: string -> string) {
    && |b.evidence| == |a.evidence| && |b.claims| == |a.claims| && |b.relations| == |a.relations|
    && |b.assumptions| == |a.assumptions| && |b.unknowns| == |a.unknowns|
    && (forall i | 0 <= i < |a.evidence| :: b.evidence[i].id == rho(a.evidence[i].id))
    && (forall j | 0 <= j < |a.claims| :: b.claims[j].id == rho(a.claims[j].id))
    && DistinctKeys(b.evidence, EvidenceId) && DistinctKeys(b.claims, ClaimId)
    && (forall i, j | 0 <= i < |a.evidence| && 0 <= j < |a.claims| :: b.evidence[i].id != b.claims[j].id)
    && (forall k | 0 <= k < |a.relations| ::
          && b.relations[k].from == rho(a.relations[k].from) && b.relations[k].to == rho(a.relations[k].to)
          && b.relations[k].kind == a.relations[k].kind && b.relations[k].rationale == a.relations[k].rationale)
    && (forall j | 0 <= j < |a.claims| ::
          && |b.claims[j].evidence| == |a.claims[j].evidence|
          && forall i | 0 <= i < |a.claims[j].evidence| :: b.claims[j].evidence[i] == rho(a.claims[j].evidence[i]))
    && (forall i | 0 <= i < |a.assumptions| ::
          a.assumptions[i].claim != "" ==> b.assumptions[i].claim == rho(a.assumptions[i].claim))
  }

  lemma NumberedIdsDistinct<T>(items: seq<T>, key: T -> string, prefix: string, n: nat)
    requires forall i | 0 <= i < |items| :: key(items[i]) == NewId(prefix, n + i)
    ensures DistinctKeys(items, key)
  {
    forall i, j | 0 <= i < j < |items| ensures key(items[i]) != key(items[j]) {
      if key(items[i]) == key(items[j]) {
        NewIdIsInjective(prefix, n + i, prefix, n + j);
      }
    }
  }

  lemma NewIdsDistinct(a: Analysis, n: nat, now: int, d: string)
    ensures var b := Relabelled(a, n, now, d);
            && DistinctKeys(b.evidence, EvidenceId) && DistinctKeys(b.claims, ClaimId)
            && DistinctKeys(b.assumptions, AssumptionId) && DistinctKeys(b.unknowns, UnknownId)
            && forall i, j | 0 <= i < |b.evidence| && 0 <= j < |b.claims| :: b.evidence[i].id != b.claims[j].id
  {
    var b := Relabelled(a, n, now, d);
    NumberedIdsDistinct(b.evidence, EvidenceId, "evd", n);
    NumberedIdsDistinct(b.claims, ClaimId, "clm", n);
    NumberedIdsDistinct(b.assumptions, AssumptionId, "asm", n);
    NumberedIdsDistinct(b.unknowns, UnknownId, "unk", n);
    forall i, j | 0 <= i < |b.evidence| && 0 <= j < |b.claims| ensures b.evidence[i].id != b.claims[j].id {
      if b.evidence[i].id == b.claims[j].id {
        NewIdIsInjective("evd", n + i, "clm", n + j);
      }
    }
  }

  /** The rewrite is an isomorphism exactly when no claim is bound automatically: that
      binding adds an edge for every item of evidence to a graph that has none. */
  lemma RelabellingPreservesTheGraph(a: Analysis, n: nat, now: int, d: string)
    requires DistinctOriginals(a)
    ensures Isomorphic(a, Relabelled(a, n, now, d), id => Mapped(IdMap(a, n), id)) <==> AutoBound(a).None?
  {
    if AutoBound(a).None? {
      UnboundIsIsomorphic(a, n, now, d);
    } else {
      assert |Relabelled(a, n, now, d).relations| == |a.evidence| > 0 == |a.relations|;
    }
  }

  lemma UnboundIsIsomorphic(a: Analysis, n: nat, now: int, d: string)
    requires DistinctOriginals(a) && AutoBound(a).None?
    ensures Isomorphic(a, Relabelled(a, n, now, d), id => Mapped(IdMap(a, n), id))
  {
    NewIdsDistinct(a, n, now, d);
    var b := Relabelled(a, n, now, d);
    forall i | 0 <= i < |a.evidence| ensures b.evidence[i].id == Mapped(IdMap(a, n), a.evidence[i].id) {
      EvidenceMapped(a, n, i);
    }
    forall j | 0 <= j < |a.claims| ensures b.claims[j].id == Mapped(IdMap(a, n), a.claims[j].id) {
      ClaimMapped(a, n, j);
    }
  }

  ghost predicate Unused(a: Analysis, id: string) {
    !IsEvidence(a, id) && !IsClaim(a, id)
  }

  /** No original ID is one that is still to be drawn. */
  ghost predicate Undrawn(a: Analysis, n: nat) {
    forall m: nat | n <= m :: Unused(a, NewId("evd", m)) && Unused(a, NewId("clm", m))
  }

  lemma EvidenceReferenceMaps(a: Analysis, n: nat, now: int, d: string, id: string)
    requires DistinctOriginals(a) && IsEvidence(a, id)
    ensures IsEvidence(Relabelled(a, n, now, d), Mapped(IdMap(a, n), id))
  {
    var i :| 0 <= i < |a.evidence| && EvidenceId(a.evidence[i]) == id;
    EvidenceMapped(a, n, i);
    assert EvidenceId(Relabelled(a, n, now, d).evidence[i]) == NewId("evd", n + i);
  }

  lemma ClaimReferenceMaps(a: Analysis, n: nat, now: int, d: string, id: string)
    requires DistinctOriginals(a) && IsClaim(a, id)
    ensures IsClaim(Relabelled(a, n, now, d), Mapped(IdMap(a, n), id))
  {
    var j :| 0 <= j < |a.claims| && ClaimId(a.claims[j]) == id;
    ClaimMapped(a, n, j);
    assert ClaimId(Relabelled(a, n, now, d).claims[j]) == NewId("clm", n + j);
  }

  lemma {:induction false} EvidenceIdsOnly(items: seq<Evidence>, n: nat, id: string)
    requires id in EvidenceIds(items, n)
    ensures HasKey(items, EvidenceId, id)
  {
    var last := |items| - 1;
    if id in EvidenceIds(items[..last], n) {
      EvidenceIdsOnly(items[..last], n, id);
      var i :| 0 <= i < last && EvidenceId(items[..last][i]) == id;
      assert EvidenceId(items[i]) == id;
    } else {
      assert EvidenceId(items[last]) == id;
    }
  }

  lemma {:induction false} ClaimIdsOnly(ids: map<string, string>, claims: seq<Claim>, n: nat, id: string)
    requires id in ClaimIdsOnto(ids, claims, n)
    ensures id in ids || HasKey(claims, ClaimId, id)
  {
    if claims != [] {
      var last := |claims| - 1;
      if id in ClaimIdsOnto(ids, claims[..last], n) {
        ClaimIdsOnly(ids, claims[..last], n, id);
        if id !in ids {
          var i :| 0 <= i < last && ClaimId(claims[..last][i]) == id;
          assert ClaimId(claims[i]) == id;
        }
      } else {
        assert ClaimId(claims[last]) == id;
      }
    }
  }

  /** An ID the analyzer did not use is not rewritten. */
  lemma UnusedIsNotMapped(a: Analysis, n: nat, id: string)
    requires Unused(a, id)
    ensures Mapped(IdMap(a, n), id) == id
  {
    if id in IdMap(a, n) {
      ClaimIdsOnly(EvidenceIds(a.evidence, n), a.claims, n, id);
      EvidenceIdsOnly(a.evidence, n, id);
    }
  }

  lemma BoundEvidenceStays(a: Analysis, n: nat, now: int, d: string, i: nat)
    requires Undrawn(a, n) && i < |a.evidence|
    ensures IsEvidence(Relabelled(a, n, now, d), Mapped(IdMap(a, n), NewEvidenceIds(a, n)[i]))
  {
    var id := NewEvidenceIds(a, n)[i];
    assert Unused(a, NewId("evd", n + i));
    UnusedIsNotMapped(a, n, id);
    assert EvidenceId(Relabelled(a, n, now, d).evidence[i]) == id;
  }

  lemma ClaimListCloses(a: Analysis, n: nat, now: int, d: string, j: nat, i: nat)
    requires DistinctOriginals(a) && Closed(a) && (AutoBound(a).Some? ==> Undrawn(a, n))
    requires j < |a.claims| && i < |Relabelled(a, n, now, d).claims[j].evidence|
    ensures IsEvidence(Relabelled(a, n, now, d), Relabelled(a, n, now, d).claims[j].evidence[i])
  {
    var own := a.claims[j].evidence;
    if i < |own| {
      EvidenceReferenceMaps(a, n, now, d, own[i]);
    } else {
      BoundEvidenceStays(a, n, now, d, i - |own|);
    }
  }

  lemma RelationCloses(a: Analysis, n: nat, now: int, d: string, k: nat)
    requires DistinctOriginals(a) && Closed(a) && (AutoBound(a).Some? ==> Undrawn(a, n)) && k < |Proposed(a, n)|
    ensures var b := Relabelled(a, n, now, d);
            k < |b.relations| && IsEvidence(b, b.relations[k].from) && IsClaim(b, b.relations[k].to)
  {
    hide NewId, DistinctOriginals, IdMap, Mapped, Unused;
    var b := Relabelled(a, n, now, d);
    match AutoBound(a)
    case None =>
      EvidenceReferenceMaps(a, n, now, d, a.relations[k].from);
      ClaimReferenceMaps(a, n, now, d, a.relations[k].to);
    case Some(j) =>
      UnusedIsNotMapped(a, n, NewId("evd", n + k));
      UnusedIsNotMapped(a, n, NewId("clm", n + j));
      assert EvidenceId(b.evidence[k]) == NewId("evd", n + k);
      assert ClaimId(b.claims[j]) == NewId("clm", n + j);
  }

  lemma AssumptionCloses(a: Analysis, n: nat, now: int, d: string, i: nat)
    requires DistinctOriginals(a) && Closed(a) && i < |a.assumptions|
    ensures var b := Relabelled(a, n, now, d); b.assumptions[i].claim == "" || IsClaim(b, b.assumptions[i].claim)
  {
    if a.assumptions[i].claim != "" {
      ClaimReferenceMaps(a, n, now, d, a.assumptions[i].claim);
    } else {
      EmptyIsNotMapped(a, n);
    }
  }

  /** None of the rewritten references dangles, automatic bindings included: those name IDs
      just drawn, which the rewrite leaves alone because no original ID equals them. */
  lemma RelabelledIsClosed(a: Analysis, n: nat, now: int, d: string)
    requires DistinctOriginals(a) && Closed(a) && (AutoBound(a).Some? ==> Undrawn(a, n))
    ensures Closed(Relabelled(a, n, now, d))
  {
    var b := Relabelled(a, n, now, d);
    forall k | 0 <= k < |b.relations| ensures IsEvidence(b, b.relations[k].from) && IsClaim(b, b.relations[k].to) {
      RelationCloses(a, n, now, d, k);
    }
    forall j, i | 0 <= j < |b.claims| && 0 <= i < |b.claims[j].evidence| ensures IsEvidence(b, b.claims[j].evidence[i]) {
      ClaimListCloses(a, n, now, d, j, i);
    }
    forall i | 0 <= i < |b.assumptions| ensures b.assumptions[i].claim == "" || IsClaim(b, b.assumptions[i].claim) {
      AssumptionCloses(a, n, now, d, i);
    }
  }

  lemma EmptyIsNotMapped(a: Analysis, n: nat)
    ensures "" !in IdMap(a, n)
  {
    EvidenceIdsSkipEmpty(a.evidence, n);
    ClaimIdsSkipEmpty(EvidenceIds(a.evidence, n), a.claims, n);
  }

  lemma {:induction false} EvidenceIdsSkipEmpty(items: seq<Evidence>, n: nat)
    ensures "" !in EvidenceIds(items, n)
  {
    if items != [] {
      EvidenceIdsSkipEmpty(items[..|items| - 1], n);
    }
  }

  lemma {:induction false} ClaimIdsSkipEmpty(ids: map<string, string>, claims: seq<Claim>, n: nat)
    requires "" !in ids
    ensures "" !in ClaimIdsOnto(ids, claims, n)
  {
    if claims != [] {
      ClaimIdsSkipEmpty(ids, claims[..|claims| - 1], n);
    }
  }

  // ---- The rewrite, field by field

  /** The last item with this original ID. */
  ghost predicate LastNamed<T>(items: seq<T>, key: T -> string, id: string, i: nat) {
    i < |items| && key(items[i]) == id && forall k | i < k < |items| :: key(items[k]) != id
  }

  lemma {:induction false} EvidenceIdsExactly(items: seq<Evidence>, n: nat, id: string)
    ensures id in EvidenceIds(items, n) <==> id != "" && HasKey(items, EvidenceId, id)
    ensures forall i: nat | id != "" && LastNamed(items, EvidenceId, id, i) ::
              id in EvidenceIds(items, n) && EvidenceIds(items, n)[id] == NewId("evd", n + i)
  {
    hide NewId;
    if items != [] {
      var front, last := items[..|items| - 1], items[|items| - 1];
      EvidenceIdsExactly(front, n, id);
      HasKeyOfOneMore(front, last, EvidenceId, id);
      assert items == front + [last];
      forall i: nat | LastNamed(items, EvidenceId, id, i) && i < |front| ensures LastNamed(front, EvidenceId, id, i) {
        assert EvidenceId(items[|front|]) != id;
      }
    }
  }

  lemma {:induction false} ClaimIdsExactly(ids: map<string, string>, claims: seq<Claim>, n: nat, id: string)
    ensures id in ClaimIdsOnto(ids, claims, n) <==> id in ids || (id != "" && HasKey(claims, ClaimId, id))
    ensures forall j: nat | id != "" && LastNamed(claims, ClaimId, id, j) ::
              id in ClaimIdsOnto(ids, claims, n) && ClaimIdsOnto(ids, claims, n)[id] == NewId("clm", n + j)
    ensures id in ids && (id == "" || !HasKey(claims, ClaimId, id)) ==> ClaimIdsOnto(ids, claims, n)[id] == ids[id]
  {
    hide NewId;
    if claims != [] {
      var front, last := claims[..|claims| - 1], claims[|claims| - 1];
      ClaimIdsExactly(ids, front, n, id);
      HasKeyOfOneMore(front, last, ClaimId, id);
      assert claims == front + [last];
      forall j: nat | LastNamed(claims, ClaimId, id, j) && j < |front| ensures LastNamed(front, ClaimId, id, j) {
        assert ClaimId(claims[|front|]) != id;
      }
    }
  }

  /** A reference to an original ID becomes the new ID of the last claim that had it, else of
      the last evidence that had it, else it stays. */
  ghost predicate Renames(a: Analysis, n: nat, id: string, renamed: string) {
    && (id == "" ==> renamed == "")
    && (forall j: nat | id != "" && LastNamed(a.claims, ClaimId, id, j) :: renamed == NewId("clm", n + j))
    && (forall i: nat | id != "" && LastNamed(a.evidence, EvidenceId, id, i) && !HasKey(a.claims, ClaimId, id) ::
          renamed == NewId("evd", n + i))
    && (!HasKey(a.claims, ClaimId, id) && !HasKey(a.evidence, EvidenceId, id) ==> renamed == id)
  }

  lemma MappedRenames(a: Analysis, n: nat, id: string)
    ensures Renames(a, n, id, Mapped(IdMap(a, n), id))
  {
    EmptyIsNotMapped(a, n);
    EvidenceIdsExactly(a.evidence, n, id);
    ClaimIdsExactly(EvidenceIds(a.evidence, n), a.claims, n, id);
    forall prefix, m: nat ensures NewId(prefix, m) != "" {
      assert |NewId(prefix, m)| >= 1;
    }
  }

  /** Every claim, evidence, assumption and unknown gets a new ID and, where it has one, the
      decision; defaults are filled in; references are renamed. All else is kept. */
  lemma RelabelledFields(a: Analysis, n: nat, now: int, d: string)
    ensures var b := Relabelled(a, n, now, d);
            && |b.claims| == |a.claims| && |b.evidence| == |a.evidence|
            && |b.assumptions| == |a.assumptions| && |b.unknowns| == |a.unknowns|
            && (forall i | 0 <= i < |a.evidence| ::
                  b.evidence[i] == a.evidence[i].(id := NewId("evd", n + i),
                                                  observedAt := if a.evidence[i].observedAt == 0 then now else a.evidence[i].observedAt))
            && (forall j | 0 <= j < |a.claims| :: ClaimRewritten(a.claims[j], b.claims[j], j, n, now, d))
            && (forall i | 0 <= i < |a.unknowns| :: b.unknowns[i] == a.unknowns[i].(id := NewId("unk", n + i), decision := d))
            && (forall i | 0 <= i < |a.assumptions| ::
                  && b.assumptions[i] == a.assumptions[i].(id := NewId("asm", n + i), decision := d, claim := b.assumptions[i].claim)
                  && Renames(a, n, a.assumptions[i].claim, b.assumptions[i].claim))
  {
    hide Renames, IdMap, AutoBound;
    var b := Relabelled(a, n, now, d);
    forall i | 0 <= i < |a.assumptions| ensures Renames(a, n, a.assumptions[i].claim, b.assumptions[i].claim) {
      MappedRenames(a, n, a.assumptions[i].claim);
    }
  }

  ghost predicate ClaimRewritten(c: Claim, r: Claim, j: nat, n: nat, now: int, d: string) {
    && r == c.(id := NewId("clm", n + j), decision := d, createdAt := now, importance := r.importance,
               support := c.support.(semantics := r.support.semantics), evidence := r.evidence)
    && r.importance == (if c.importance != "" then c.importance else if c.critical then "critical" else "supporting")
    && r.support.semantics == (if c.support.semantics != "" then c.support.semantics
                               else "explainable evidence support; not probability of truth")
  }

  /** The claim the service binds to all evidence: when no relation was proposed and there is
      evidence, the first claim that is supported or contradicted. */
  ghost predicate BoundClaim(a: Analysis, j: nat) {
    && a.relations == [] && a.evidence != []
    && j < |a.claims| && (a.claims[j].state.Supported? || a.claims[j].state.Contradicted?)
    && forall i | 0 <= i < j :: !a.claims[i].state.Supported? && !a.claims[i].state.Contradicted?
  }

  lemma AutoBoundExactly(a: Analysis)
    ensures forall j: nat :: AutoBound(a) == Some(j) <==> BoundClaim(a, j)
  {
    if j: nat :| BoundClaim(a, j) {
      assert FirstDecided(a.claims).Some?;
      assert FirstDecided(a.claims).value == j;
    }
  }

  /** A bound claim has one edge from each evidence, contradicting or supporting it as the
      claim says. */
  lemma BoundEdges(a: Analysis, n: nat, now: int, d: string, j: nat)
    requires BoundClaim(a, j)
    ensures var relations := Relabelled(a, n, now, d).relations;
            |relations| == |a.evidence| && forall i | 0 <= i < |relations| :: BindsEvidence(a, n, i, j, relations[i])
  {
    hide Renames, IdMap, AutoBound;
    AutoBoundExactly(a);
    var relations := Relabelled(a, n, now, d).relations;
    assert Proposed(a, n) == AutoRelations(a, j, n);
    forall i | 0 <= i < |relations| ensures BindsEvidence(a, n, i, j, relations[i]) {
      MappedRenames(a, n, NewId("evd", n + i));
      MappedRenames(a, n, NewId("clm", n + j));
      assert NewId("rel", n + i) != "" by { assert |NewId("rel", n + i)| >= 1; }
    }
  }

  /** Without one the proposed relations are kept, renamed, with new IDs where they had none. */
  lemma ProposedEdges(a: Analysis, n: nat, now: int, d: string)
    requires forall j: nat :: !BoundClaim(a, j)
    ensures var relations := Relabelled(a, n, now, d).relations;
            && |relations| == |a.relations|
            && forall k | 0 <= k < |relations| :: RelationRewritten(a, n, k, a.relations[k], relations[k])
  {
    hide Renames, IdMap, BoundClaim, AutoBound;
    AutoBoundExactly(a);
    var relations := Relabelled(a, n, now, d).relations;
    assert Proposed(a, n) == a.relations by {
      if AutoBound(a).Some? {
        assert BoundClaim(a, AutoBound(a).value);
      }
    }
    forall k | 0 <= k < |relations| ensures RelationRewritten(a, n, k, a.relations[k], relations[k]) {
      MappedRenames(a, n, a.relations[k].from);
      MappedRenames(a, n, a.relations[k].to);
    }
  }

  lemma ListsRewritten(a: Analysis, n: nat, now: int, d: string, j: nat)
    requires j < |a.claims|
    ensures ListRewritten(a, n, j, a.claims[j].evidence, Relabelled(a, n, now, d).claims[j].evidence)
  {
    hide Renames, IdMap, BoundClaim, AutoBound;
    AutoBoundExactly(a);
    var list, rewritten := a.claims[j].evidence, Relabelled(a, n, now, d).claims[j].evidence;
    var whole := NewClaim(a, j, n, now, d).evidence;
    assert BoundClaim(a, j) <==> AutoBound(a) == Some(j);
    assert rewritten == MappedAll(IdMap(a, n), whole);
    forall i | 0 <= i < |rewritten| ensures Renames(a, n, whole[i], rewritten[i]) {
      MappedRenames(a, n, whole[i]);
    }
    assert forall i | |list| <= i < |whole| :: whole[i] == NewId("evd", n + (i - |list|));
  }

  ghost predicate BindsEvidence(a: Analysis, n: nat, i: nat, j: nat, r: Relation)
    requires j < |a.claims|
  {
    && r.id == NewId("rel", n + i) && Renames(a, n, NewId("evd", n + i), r.from) && Renames(a, n, NewId("clm", n + j), r.to)
    && r.kind == (if a.claims[j].state.Contradicted? then Contradicts else Supports) && r.rationale == a.claims[j].justification
  }

  ghost predicate RelationRewritten(a: Analysis, n: nat, k: nat, r: Relation, s: Relation) {
    && Renames(a, n, r.from, s.from) && Renames(a, n, r.to, s.to) && s.kind == r.kind && s.rationale == r.rationale
    && s.id == (if r.id == "" then NewId("rel", n + k) else r.id)
  }

  /** A claim's own evidence references are renamed; a bound claim lists all evidence after
      them. */
  ghost predicate ListRewritten(a: Analysis, n: nat, j: nat, list: seq<string>, rewritten: seq<string>) {
    && |rewritten| == |list| + (if BoundClaim(a, j) then |a.evidence| else 0)
    && (forall i | 0 <= i < |list| :: Renames(a, n, list[i], rewritten[i]))
    && (forall i | |list| <= i < |rewritten| :: Renames(a, n, NewId("evd", n + (i - |list|)), rewritten[i]))
  }
}
