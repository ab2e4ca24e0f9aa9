/** The portable event ledger (apps/control-plane/internal/httpapi/protocol.go): four
    linked indexes and the table of published engine runs, updated under one lock. */
module EventLedger {
  import opened Json
  import opened Protocol
  import Sorting

  /** How two deliveries of one ID are compared; the handler uses the canonical hash. */
  type EventHash = Event -> string

  ghost predicate ComparesJson(hash: EventHash) {
    forall a, b :: hash(a) == hash(b) <==> SameJson(a, b)
  }

  lemma CanonicalHashComparesJson(sha: Sha)
    requires CollisionFree(sha)
    ensures ComparesJson(e => Hash(e, sha))
  {
    forall a, b ensures Hash(a, sha) == Hash(b, sha) <==> SameJson(a, b) {
      HashDecidesSameJson(a, b, sha);
    }
  }

  datatype Ledger = Ledger(
    events: map<string, Event>,
    idempotency: map<string, string>,
    byDecision: map<string, seq<string>>,
    sequences: map<string, map<int, string>>,
    runs: map<string, string>)

  const EMPTY := Ledger(map[], map[], map[], map[], map[])

  datatype Outcome =
    | Accepted(run: string)   // the published run to forward to, "" for none
    | Duplicate
    | IdReused
    | KeyTaken(owner: string)
    | ParentUnknown
    | ParentNotEarlier
    | SequenceTaken(owner: string)

  function EffectiveKey(e: Event): string {
    if e.idempotencyKey == "" then e.id else e.idempotencyKey
  }

  /** The partition a sequence number is reserved in: explicit, else the run, else the decision. */
  function Partition(e: Event): string {
    if e.partition != "" then e.partition
    else if e.context.run != "" then e.context.run
    else e.context.decision
  }

  predicate Ordered(e: Event) {
    e.sequence > 0 && Partition(e) != ""
  }

  function Listed(l: Ledger, decision: string): seq<string> {
    if decision in l.byDecision then l.byDecision[decision] else []
  }

  function Owner(l: Ledger, partition: string, sequence: int): string {
    if partition in l.sequences && sequence in l.sequences[partition] then l.sequences[partition][sequence] else ""
  }

  function PublishedRun(l: Ledger, decision: string): string {
    if decision in l.runs then l.runs[decision] else ""
  }

  // ---- The lock sections as functions

  /** The parent check of a new event; true when it passes. */
  predicate ParentPrecedes(parent: Event, e: Event) {
    !(e.sequence > 0 && parent.sequence > 0 && parent.partition == e.partition && parent.sequence >= e.sequence)
  }

  function Verdict(l: Ledger, e: Event, hash: EventHash): Outcome {
    if e.id in l.events then
      if hash(l.events[e.id]) != hash(e) then IdReused else Duplicate
    else if EffectiveKey(e) in l.idempotency then
      if l.idempotency[EffectiveKey(e)] != e.id then KeyTaken(l.idempotency[EffectiveKey(e)]) else Duplicate
    else if e.context.parent != "" && e.context.parent !in l.events then ParentUnknown
    else if e.context.parent != "" && !ParentPrecedes(l.events[e.context.parent], e) then ParentNotEarlier
    else if Ordered(e) && Owner(l, Partition(e), e.sequence) !in ["", e.id] then
      SequenceTaken(Owner(l, Partition(e), e.sequence))
    else Accepted(PublishedRun(l, e.context.decision))
  }

  function Record(l: Ledger, e: Event): Ledger {
    var p := Partition(e);
    Ledger(
      l.events[e.id := e],
      l.idempotency[EffectiveKey(e) := e.id],
      if e.context.decision == "" then l.byDecision
      else l.byDecision[e.context.decision := Listed(l, e.context.decision) + [e.id]],
      if !Ordered(e) then l.sequences
      else l.sequences[p := (if p in l.sequences then l.sequences[p] else map[])[e.sequence := e.id]],
      l.runs)
  }

  function Accept(l: Ledger, e: Event, hash: EventHash): Ledger {
    if Verdict(l, e, hash).Accepted? then Record(l, e) else l
  }

  /** The list without the first occurrence of the ID. */
  function Without(ids: seq<string>, id: string): seq<string> {
    if ids == [] then []
    else if ids[0] == id then ids[1..]
    else [ids[0]] + Without(ids[1..], id)
  }

  function RollBack(l: Ledger, e: Event): Ledger {
    var p := Partition(e);
    Ledger(
      l.events - {e.id},
      l.idempotency - {EffectiveKey(e)},
      if e.id in Listed(l, e.context.decision)
      then l.byDecision[e.context.decision := Without(Listed(l, e.context.decision), e.id)]
      else l.byDecision,
      if Ordered(e) && p in l.sequences then l.sequences[p := l.sequences[p] - {e.sequence}] else l.sequences,
      l.runs)
  }

  function Publish(l: Ledger, decision: string, run: string): Ledger {
    l.(runs := l.runs[decision := run])
  }

  // ---- Reading a decision's history

  /** The comparison `protocolEvents` sorts by. */
  predicate Earlier(a: Event, b: Event) {
    if a.sequence == b.sequence then a.time < b.time
    else if a.sequence == 0 then false
    else if b.sequence == 0 then true
    else a.sequence < b.sequence
  }

  function EventsOf(l: Ledger, ids: seq<string>): seq<Event>
    requires forall id | id in ids :: id in l.events
  {
    seq(|ids|, i requires 0 <= i < |ids| => assert ids[i] in ids; l.events[ids[i]])
  }

  /** What a decision's history endpoint returns. */
  function History(l: Ledger, d: string): seq<Event>
    requires forall id | id in Listed(l, d) :: id in l.events
  {
    Sorting.Sort(EventsOf(l, Listed(l, d)), Earlier)
  }

  // ---- Consistency of the four indexes

  ghost predicate NoRepeats(ids: seq<string>) {
    forall i, j | 0 <= i < j < |ids| :: ids[i] != ids[j]
  }

  ghost predicate EventsAgree(l: Ledger) {
    forall id | id in l.events :: id != "" && l.events[id].id == id
  }

  /** Keys and accepted events correspond one to one. */
  ghost predicate KeysAgree(l: Ledger) {
    && (forall key | key in l.idempotency ::
          l.idempotency[key] in l.events && EffectiveKey(l.events[l.idempotency[key]]) == key)
    && (forall id | id in l.events ::
          EffectiveKey(l.events[id]) in l.idempotency && l.idempotency[EffectiveKey(l.events[id])] == id)
  }

  /** Each decision lists exactly its accepted events, each once. */
  ghost predicate ListsAgree(l: Ledger) {
    && (forall d :: NoRepeats(Listed(l, d)))
    && (forall d, id | id in Listed(l, d) :: d != "" && id in l.events && l.events[id].context.decision == d)
    && (forall id | id in l.events && l.events[id].context.decision != "" :: id in Listed(l, l.events[id].context.decision))
  }

  /** Each reserved sequence number belongs to the one accepted event that carries it. */
  ghost predicate SequencesAgree(l: Ledger) {
    && (forall p, n | Owner(l, p, n) != "" ::
          Owner(l, p, n) in l.events && Ordered(l.events[Owner(l, p, n)])
          && Partition(l.events[Owner(l, p, n)]) == p && l.events[Owner(l, p, n)].sequence == n)
    && (forall id | id in l.events && Ordered(l.events[id]) ::
          Owner(l, Partition(l.events[id]), l.events[id].sequence) == id)
  }

  ghost predicate Consistent(l: Ledger) {
    EventsAgree(l) && KeysAgree(l) && ListsAgree(l) && SequencesAgree(l)
  }

  lemma EmptyIsConsistent()
    ensures Consistent(EMPTY)
  {
  }

  lemma RecordLists(l: Ledger, e: Event, d: string)
    requires ListsAgree(l) && e.id !in l.events
    ensures Listed(Record(l, e), d) == Listed(l, d) + if d == e.context.decision && d != "" then [e.id] else []
    ensures NoRepeats(Listed(Record(l, e), d))
  {
    assert NoRepeats(Listed(l, d));
    assert e.id !in Listed(l, d);
  }

  lemma RecordListsItsOwn(l: Ledger, e: Event, d: string, id: string)
    requires EventsAgree(l) && ListsAgree(l) && e.id !in l.events && id in Listed(Record(l, e), d)
    ensures d != "" && id in Record(l, e).events && Record(l, e).events[id].context.decision == d
  {
    RecordLists(l, e, d);
    if id in Listed(l, d) {
      assert id in l.events && id != e.id;
    } else {
      assert Listed(Record(l, e), d) == Listed(l, d) + [e.id];
    }
  }

  lemma RecordKeepsLists(l: Ledger, e: Event)
    requires EventsAgree(l) && ListsAgree(l) && e.id !in l.events
    ensures ListsAgree(Record(l, e))
  {
    var m := Record(l, e);
    forall d ensures NoRepeats(Listed(m, d)) {
      RecordLists(l, e, d);
    }
    forall d, id | id in Listed(m, d) ensures d != "" && id in m.events && m.events[id].context.decision == d {
      RecordListsItsOwn(l, e, d, id);
    }
    forall id | id in m.events && m.events[id].context.decision != ""
      ensures id in Listed(m, m.events[id].context.decision)
    {
      RecordListsEach(l, e, id);
    }
  }

  lemma RecordListsEach(l: Ledger, e: Event, id: string)
    requires ListsAgree(l) && e.id !in l.events && id in Record(l, e).events && Record(l, e).events[id].context.decision != ""
    ensures id in Listed(Record(l, e), Record(l, e).events[id].context.decision)
  {
    hide NoRepeats;
    var d := Record(l, e).events[id].context.decision;
    RecordLists(l, e, d);
    if id != e.id {
      assert id in l.events && id in Listed(l, d);
    }
  }

  lemma RecordKeepsSequences(l: Ledger, e: Event)
    requires Consistent(l) && e.id !in l.events && e.id != ""
    requires Ordered(e) ==> Owner(l, Partition(e), e.sequence) == ""
    ensures SequencesAgree(Record(l, e))
  {
    hide Ordered, Partition, EffectiveKey, KeysAgree, Listed, ListsAgree;
    var m := Record(l, e);
    forall p, n ensures Owner(m, p, n) == if Ordered(e) && p == Partition(e) && n == e.sequence then e.id else Owner(l, p, n) {
    }
  }

  lemma RecordKeepsKeys(l: Ledger, e: Event)
    requires EventsAgree(l) && KeysAgree(l) && e.id !in l.events && EffectiveKey(e) !in l.idempotency
    ensures KeysAgree(Record(l, e))
  {
  }

  lemma RecordKeepsConsistent(l: Ledger, e: Event)
    requires Consistent(l) && e.id != "" && e.id !in l.events && EffectiveKey(e) !in l.idempotency
    requires Ordered(e) ==> Owner(l, Partition(e), e.sequence) == ""
    ensures Consistent(Record(l, e))
  {
    RecordKeepsKeys(l, e);
    RecordKeepsLists(l, e);
    RecordKeepsSequences(l, e);
  }

  lemma PublishKeepsConsistent(l: Ledger, decision: string, run: string)
    requires Consistent(l)
    ensures Consistent(Publish(l, decision, run))
  {
    hide ListsAgree, SequencesAgree;
    SameListsAgree(l, Publish(l, decision, run));
    SameSequencesAgree(l, Publish(l, decision, run));
  }

  lemma SameListsAgree(l: Ledger, m: Ledger)
    requires ListsAgree(l) && m.events == l.events && m.byDecision == l.byDecision
    ensures ListsAgree(m)
  {
    assert forall d :: Listed(m, d) == Listed(l, d);
  }

  lemma SameSequencesAgree(l: Ledger, m: Ledger)
    requires SequencesAgree(l) && m.events == l.events && m.sequences == l.sequences
    ensures SequencesAgree(m)
  {
    assert forall p, n :: Owner(m, p, n) == Owner(l, p, n);
  }

  /** What an accepted event is known to be. */
  lemma AcceptedIsNew(l: Ledger, e: Event, hash: EventHash)
    requires Consistent(l) && e.id != "" && Verdict(l, e, hash).Accepted?
    ensures e.id !in l.events && EffectiveKey(e) !in l.idempotency
    ensures Ordered(e) ==> Owner(l, Partition(e), e.sequence) == ""
    ensures e.context.parent != "" ==> e.context.parent in l.events && ParentPrecedes(l.events[e.context.parent], e)
    ensures Verdict(l, e, hash) == Accepted(PublishedRun(l, e.context.decision))
  {
  }

  /** Every accepted event leaves the ledger consistent, and so does every refused one. */
  lemma AcceptKeepsConsistent(l: Ledger, e: Event, hash: EventHash)
    requires Consistent(l) && e.id != ""
    ensures Consistent(Accept(l, e, hash))
  {
    if Verdict(l, e, hash).Accepted? {
      AcceptedIsNew(l, e, hash);
      RecordKeepsConsistent(l, e);
    }
  }

  /** The branch "same key, same ID" behind the ID check is never taken. */
  lemma SameKeySameIdIsUnreachable(l: Ledger, e: Event)
    requires Consistent(l) && e.id !in l.events && EffectiveKey(e) in l.idempotency
    ensures l.idempotency[EffectiveKey(e)] != e.id
  {
  }

  /** A redelivered ID is a duplicate exactly when both deliveries denote one JSON value;
      no other event is ever answered "duplicate". */
  lemma DuplicateMeansSameJson(l: Ledger, e: Event, hash: EventHash)
    requires Consistent(l) && ComparesJson(hash)
    ensures Verdict(l, e, hash).Duplicate? <==> e.id in l.events && SameJson(l.events[e.id], e)
    ensures Verdict(l, e, hash).IdReused? <==> e.id in l.events && !SameJson(l.events[e.id], e)
  {
    if e.id in l.events {
    } else if EffectiveKey(e) in l.idempotency {
      SameKeySameIdIsUnreachable(l, e);
    }
  }

  // ---- What is accepted, in terms of the stored events alone

  /** The two claim one idempotency key; without one an event's ID is its key. */
  ghost predicate SameKey(a: Event, b: Event) {
    (if a.idempotencyKey != "" then a.idempotencyKey else a.id) == (if b.idempotencyKey != "" then b.idempotencyKey else b.id)
  }

  /** The event counts in this partition: the written one, else its run, else its decision. */
  ghost predicate CountsIn(e: Event, p: string) {
    || (e.partition != "" && p == e.partition)
    || (e.partition == "" && e.context.run != "" && p == e.context.run)
    || (e.partition == "" && e.context.run == "" && p == e.context.decision)
  }

  /** The two claim one number of one partition. */
  ghost predicate SameNumber(a: Event, b: Event) {
    a.sequence > 0 && a.sequence == b.sequence && exists p | p != "" :: CountsIn(a, p) && CountsIn(b, p)
  }

  /** Within one written partition a numbered child comes after its numbered parent. */
  ghost predicate MayFollow(parent: Event, e: Event) {
    parent.sequence > 0 && e.sequence > 0 && parent.partition == e.partition ==> parent.sequence < e.sequence
  }

  ghost predicate ParentAllows(l: Ledger, e: Event) {
    e.context.parent == "" || (e.context.parent in l.events && MayFollow(l.events[e.context.parent], e))
  }

  ghost predicate KeyFree(l: Ledger, e: Event) {
    forall id | id in l.events :: !SameKey(l.events[id], e)
  }

  ghost predicate NumberFree(l: Ledger, e: Event) {
    forall id | id in l.events :: !SameNumber(l.events[id], e)
  }

  lemma KeysAreTheEvents(l: Ledger, e: Event)
    requires Consistent(l)
    ensures EffectiveKey(e) in l.idempotency <==> !KeyFree(l, e)
    ensures forall id | id in l.events && SameKey(l.events[id], e) ::
              EffectiveKey(e) in l.idempotency && l.idempotency[EffectiveKey(e)] == id
    ensures EffectiveKey(e) in l.idempotency ==>
              l.idempotency[EffectiveKey(e)] in l.events && SameKey(l.events[l.idempotency[EffectiveKey(e)]], e)
  {
    hide ListsAgree, SequencesAgree;
    forall id | id in l.events ensures SameKey(l.events[id], e) <==> EffectiveKey(l.events[id]) == EffectiveKey(e) {
    }
  }

  lemma PartitionCounts(e: Event, p: string)
    ensures CountsIn(e, p) <==> p == Partition(e)
  {
  }

  lemma SameNumberIsReserved(a: Event, b: Event)
    ensures SameNumber(a, b) <==> Ordered(a) && Ordered(b) && Partition(a) == Partition(b) && a.sequence == b.sequence
  {
    hide CountsIn, Partition;
    forall p ensures (CountsIn(a, p) <==> p == Partition(a)) && (CountsIn(b, p) <==> p == Partition(b)) {
      PartitionCounts(a, p);
      PartitionCounts(b, p);
    }
    assert Partition(a) == Partition(b) && Partition(a) != "" ==> CountsIn(a, Partition(a)) && CountsIn(b, Partition(a));
  }

  lemma NumbersAreTheEvents(l: Ledger, e: Event)
    requires Consistent(l)
    ensures var owner := Owner(l, Partition(e), e.sequence);
            && (forall id | id in l.events && SameNumber(l.events[id], e) :: Ordered(e) && owner == id)
            && (Ordered(e) && owner != "" ==> owner in l.events && SameNumber(l.events[owner], e))
  {
    hide KeysAgree, ListsAgree, SameNumber, Partition;
    forall id | id in l.events
      ensures SameNumber(l.events[id], e) <==>
                Ordered(l.events[id]) && Ordered(e) && Partition(l.events[id]) == Partition(e) && l.events[id].sequence == e.sequence
    {
      SameNumberIsReserved(l.events[id], e);
    }
  }

  /** An event is accepted exactly when no accepted event has its ID, its key or its number,
      and its parent, if it names one, was accepted and may come before it. */
  lemma AcceptedExactly(l: Ledger, e: Event, hash: EventHash)
    requires Consistent(l) && e.id != ""
    ensures Verdict(l, e, hash).Accepted? <==>
              e.id !in l.events && KeyFree(l, e) && ParentAllows(l, e) && NumberFree(l, e)
    ensures Verdict(l, e, hash).Accepted? ==>
              Verdict(l, e, hash).run == if e.context.decision in l.runs then l.runs[e.context.decision] else ""
  {
    hide EffectiveKey, Partition, Ordered, SameKey, SameNumber, Owner, KeysAgree, ListsAgree, SequencesAgree;
    KeysAreTheEvents(l, e);
    NumbersAreTheEvents(l, e);
    if e.id !in l.events {
      ReservedByOthers(l, e);
    }
  }

  lemma ReservedByOthers(l: Ledger, e: Event)
    requires Consistent(l) && e.id !in l.events
    ensures Ordered(e) ==> Owner(l, Partition(e), e.sequence) != e.id || e.id == ""
  {
    hide KeysAgree, ListsAgree;
  }

  /** Each refusal, in the order of the checks; the owner named is the event in the way. */
  lemma RefusedExactly(l: Ledger, e: Event, hash: EventHash)
    requires Consistent(l) && e.id != ""
    ensures var outcome := Verdict(l, e, hash);
            && (outcome.IdReused? <==> e.id in l.events && hash(l.events[e.id]) != hash(e))
            && (outcome.Duplicate? <==> e.id in l.events && hash(l.events[e.id]) == hash(e))
            && (outcome.KeyTaken? <==> e.id !in l.events && !KeyFree(l, e))
            && (outcome.KeyTaken? ==> outcome.owner in l.events && SameKey(l.events[outcome.owner], e))
            && (outcome.ParentUnknown? <==>
                  e.id !in l.events && KeyFree(l, e) && e.context.parent != "" && e.context.parent !in l.events)
            && (outcome.ParentNotEarlier? <==>
                  && e.id !in l.events && KeyFree(l, e) && e.context.parent != "" && e.context.parent in l.events
                  && !MayFollow(l.events[e.context.parent], e))
            && (outcome.SequenceTaken? <==> e.id !in l.events && KeyFree(l, e) && ParentAllows(l, e) && !NumberFree(l, e))
            && (outcome.SequenceTaken? ==> outcome.owner in l.events && SameNumber(l.events[outcome.owner], e))
  {
    hide EffectiveKey, Partition, Ordered, SameKey, SameNumber, Owner, KeysAgree, ListsAgree, SequencesAgree;
    KeysAreTheEvents(l, e);
    NumbersAreTheEvents(l, e);
    if e.id !in l.events {
      ReservedByOthers(l, e);
    }
    if e.id !in l.events && !KeyFree(l, e) {
      SameKeySameIdIsUnreachable(l, e);
    }
  }

  /** An accepted event joins the events and the end of its decision's list; nothing else of
      the events, lists and runs changes. A refused one changes nothing. */
  lemma AcceptedIsRecorded(l: Ledger, e: Event, hash: EventHash, d: string)
    requires Consistent(l) && e.id != ""
    ensures var m := Accept(l, e, hash);
            if Verdict(l, e, hash).Accepted? then
              && m.events == l.events[e.id := e] && m.runs == l.runs
              && Listed(m, d) == Listed(l, d) + if d != "" && d == e.context.decision then [e.id] else []
            else m == l
  {
    if Verdict(l, e, hash).Accepted? {
      AcceptedIsNew(l, e, hash);
      RecordLists(l, e, d);
    }
  }

  // ---- Rolling back

  lemma {:induction false} WithoutRemovesOnly(ids: seq<string>, id: string)
    requires NoRepeats(ids) && id in ids
    ensures NoRepeats(Without(ids, id))
    ensures forall x :: x in Without(ids, id) <==> x in ids && x != id
  {
    if ids[0] != id {
      WithoutRemovesOnly(ids[1..], id);
      assert ids[0] !in ids[1..];
    }
  }

  lemma RollBackUnlists(l: Ledger, e: Event, d: string)
    requires ListsAgree(l) && e.id in l.events && l.events[e.id] == e
    ensures NoRepeats(Listed(RollBack(l, e), d))
    ensures forall id :: id in Listed(RollBack(l, e), d) <==> id in Listed(l, d) && id != e.id
  {
    assert NoRepeats(Listed(l, d)) && NoRepeats(Listed(l, e.context.decision));
    if e.id in Listed(l, e.context.decision) {
      WithoutRemovesOnly(Listed(l, e.context.decision), e.id);
    }
  }

  lemma RollBackKeepsLists(l: Ledger, e: Event)
    requires EventsAgree(l) && ListsAgree(l) && e.id in l.events && l.events[e.id] == e
    ensures ListsAgree(RollBack(l, e))
    ensures forall d, id :: id in Listed(RollBack(l, e), d) <==> id in Listed(l, d) && id != e.id
  {
    hide Without;
    var m := RollBack(l, e);
    forall d ensures NoRepeats(Listed(m, d))
             ensures forall id :: id in Listed(m, d) <==> id in Listed(l, d) && id != e.id {
      RollBackUnlists(l, e, d);
    }
  }

  lemma RollBackKeepsSequences(l: Ledger, e: Event)
    requires Consistent(l) && e.id in l.events && l.events[e.id] == e
    ensures SequencesAgree(RollBack(l, e))
  {
    hide KeysAgree, ListsAgree;
    var m := RollBack(l, e);
    forall p, n ensures Owner(m, p, n) == if Ordered(e) && p == Partition(e) && n == e.sequence then "" else Owner(l, p, n) {
    }
    forall p, n | Owner(l, p, n) == e.id && Owner(l, p, n) != "" ensures Ordered(e) && p == Partition(e) && n == e.sequence {
    }
  }

  /** A failed forward may roll its event back after any other steps: as long as the
      event is still the recorded one, the four indexes stay consistent. */
  lemma RollBackKeepsConsistent(l: Ledger, e: Event)
    requires Consistent(l) && e.id in l.events && l.events[e.id] == e
    ensures Consistent(RollBack(l, e))
  {
    RollBackKeepsLists(l, e);
    RollBackKeepsSequences(l, e);
    var m := RollBack(l, e);
    forall id | id in m.events
      ensures EffectiveKey(m.events[id]) in m.idempotency && m.idempotency[EffectiveKey(m.events[id])] == id
    {
      assert l.idempotency[EffectiveKey(e)] == e.id;
    }
  }

  /** The same ledger up to empty lists and empty partitions. */
  ghost predicate SameLedger(a: Ledger, b: Ledger) {
    && a.events == b.events && a.idempotency == b.idempotency && a.runs == b.runs
    && (forall d :: Listed(a, d) == Listed(b, d))
    && (forall p, n :: Owner(a, p, n) == Owner(b, p, n))
  }

  lemma {:induction false} WithoutUndoesAppend(ids: seq<string>, id: string)
    requires id !in ids
    ensures Without(ids + [id], id) == ids
  {
    if ids != [] {
      WithoutUndoesAppend(ids[1..], id);
      assert (ids + [id])[1..] == ids[1..] + [id];
    }
  }

  /** Accepting and rolling back with nothing in between restores the ledger. */
  lemma RollBackUndoesAccept(l: Ledger, e: Event, hash: EventHash)
    requires Consistent(l) && e.id != "" && Verdict(l, e, hash).Accepted?
    ensures SameLedger(RollBack(Accept(l, e, hash), e), l)
  {
    AcceptedIsNew(l, e, hash);
    RollBackUndoesRecord(l, e);
  }

  lemma RollBackUndoesRecord(l: Ledger, e: Event)
    requires ListsAgree(l) && SequencesAgree(l) && e.id !in l.events && EffectiveKey(e) !in l.idempotency
    requires Ordered(e) ==> Owner(l, Partition(e), e.sequence) == ""
    ensures SameLedger(RollBack(Record(l, e), e), l)
  {
    assert RollBack(Record(l, e), e).events == l.events;
    assert RollBack(Record(l, e), e).idempotency == l.idempotency;
    forall d ensures Listed(RollBack(Record(l, e), e), d) == Listed(l, d) {
      RelistedAlike(l, e, d);
    }
    forall p, n ensures Owner(RollBack(Record(l, e), e), p, n) == Owner(l, p, n) {
      ReservedAlike(l, e, p, n);
    }
  }

  lemma RelistedAlike(l: Ledger, e: Event, d: string)
    requires ListsAgree(l) && e.id !in l.events
    ensures Listed(RollBack(Record(l, e), e), d) == Listed(l, d)
  {
    assert e.id !in Listed(l, e.context.decision);
    if e.context.decision != "" {
      var longer := Listed(l, e.context.decision) + [e.id];
      assert longer[|longer| - 1] == e.id;
      WithoutUndoesAppend(Listed(l, e.context.decision), e.id);
    }
  }

  lemma ReservedAlike(l: Ledger, e: Event, p: string, n: int)
    requires SequencesAgree(l) && e.id !in l.events
    requires Ordered(e) ==> Owner(l, Partition(e), e.sequence) == ""
    ensures Owner(RollBack(Record(l, e), e), p, n) == Owner(l, p, n)
  {
  }

  /** The event has no parent, or its parent is another accepted event that precedes it. */
  predicate ParentStands(l: Ledger, e: Event) {
    e.context.parent == ""
    || (e.context.parent != e.id && e.context.parent in l.events && ParentPrecedes(l.events[e.context.parent], e))
  }

  /** A rolled-back event is accepted again when redelivered, exactly as long as its parent
      still stands. */
  lemma RolledBackIsAcceptedAgain(l: Ledger, e: Event, hash: EventHash)
    requires Consistent(l) && e.id in l.events && l.events[e.id] == e
    ensures Verdict(RollBack(l, e), e, hash) == Accepted(PublishedRun(l, e.context.decision)) <==> ParentStands(l, e)
  {
    hide Consistent, Ordered, Partition;
    var m := RollBack(l, e);
    assert Ordered(e) ==> Owner(m, Partition(e), e.sequence) == "";
  }

  // ---- The code

  class ProtocolState {
    var events: map<string, Event>
    var idempotency: map<string, string>
    var eventsByDecision: map<string, seq<string>>
    var sequences: map<string, map<int, string>>
    var runs: map<string, string>

    constructor ()
      ensures Contents() == EMPTY
    {
      events, idempotency, eventsByDecision, sequences, runs := map[], map[], map[], map[], map[];
    }

    function Contents(): Ledger
      reads this
    {
      Ledger(events, idempotency, eventsByDecision, sequences, runs)
    }

    /** The first lock section of `acceptProtocolEvent`. */
    method AcceptSection(e: Event, hash: EventHash) returns (outcome: Outcome)
      requires e.id != ""
      modifies this
      ensures outcome == Verdict(old(Contents()), e, hash)
      ensures Contents() == Accept(old(Contents()), e, hash)
    {
      outcome := CheckEvent(e, hash);
      if outcome.Accepted? {
        RecordEvent(e);
      }
    }

    /** Its checks, in order. */
    method CheckEvent(e: Event, hash: EventHash) returns (outcome: Outcome)
      ensures outcome == Verdict(Contents(), e, hash)
    {
      var key := e.idempotencyKey;
      if key == "" {
        key := e.id;
      }
      if e.id in events {
        if hash(events[e.id]) != hash(e) {
          return IdReused;
        }
        return Duplicate;
      }
      if key in idempotency {
        if idempotency[key] != e.id {
          return KeyTaken(idempotency[key]);
        }
        return Duplicate;
      }
      if e.context.parent != "" {
        if e.context.parent !in events {
          return ParentUnknown;
        }
        var parent := events[e.context.parent];
        if e.sequence > 0 && parent.sequence > 0 && parent.partition == e.partition && parent.sequence >= e.sequence {
          return ParentNotEarlier;
        }
      }
      var partition := Partition(e);
      if e.sequence > 0 && partition != "" {
        var existing := Owner(Contents(), partition, e.sequence);
        if existing != "" && existing != e.id {
          return SequenceTaken(existing);
        }
      }
      outcome := Accepted(if e.context.decision in runs then runs[e.context.decision] else "");
    }

    /** Its updates. */
    method RecordEvent(e: Event)
      modifies this
      ensures Contents() == Record(old(Contents()), e)
    {
      var partition := e.partition;
      if partition == "" {
        partition := e.context.run;
        if partition == "" {
          partition := e.context.decision;
        }
      }
      if e.sequence > 0 && partition != "" {
        var reserved: map<int, string> := if partition in sequences then sequences[partition] else map[];
        sequences := sequences[partition := reserved[e.sequence := e.id]];
      }
      events := events[e.id := e];
      idempotency := idempotency[EffectiveKey(e) := e.id];
      if e.context.decision != "" {
        var ids := if e.context.decision in eventsByDecision then eventsByDecision[e.context.decision] else [];
        eventsByDecision := eventsByDecision[e.context.decision := ids + [e.id]];
      }
    }

    /** `protocolEvents`: copy the listed events under the lock, sort them after it. */
    method ProtocolEvents(decision: string) returns (history: seq<Event>)
      requires forall id | id in Listed(Contents(), decision) :: id in events
      ensures history == History(Contents(), decision)
    {
      var ids := if decision in eventsByDecision then eventsByDecision[decision] else [];
      history := [];
      for i := 0 to |ids|
        invariant |history| == i
        invariant forall k | 0 <= k < i :: history[k] == events[ids[k]]
      {
        history := history + [events[ids[i]]];
      }
      assert history == EventsOf(Contents(), ids);
      history := Sorting.Sort(history, Earlier);
    }

    /** The lock section that undoes an accept whose forward failed. */
    method RollBackSection(e: Event)
      modifies this
      ensures Contents() == RollBack(old(Contents()), e)
    {
      events := events - {e.id};
      idempotency := idempotency - {EffectiveKey(e)};
      var partition := Partition(e);
      if e.sequence > 0 && partition != "" {
        if partition in sequences {
          sequences := sequences[partition := sequences[partition] - {e.sequence}];
        }
      }
      var ids := if e.context.decision in eventsByDecision then eventsByDecision[e.context.decision] else [];
      var index := 0;
      while index < |ids|
        invariant 0 <= index <= |ids|
        invariant e.id !in ids[..index]
      {
        if ids[index] == e.id {
          WithoutAt(ids, index, e.id);
          eventsByDecision := eventsByDecision[e.context.decision := ids[..index] + ids[index + 1..]];
          return;
        }
        index := index + 1;
      }
      assert ids[..|ids|] == ids;
    }

    /** The lock section of `protocolEvaluate`: publish the run and copy the buffered IDs. */
    method PublishSection(decision: string, run: string) returns (buffered: seq<string>)
      modifies this
      ensures Contents() == Publish(old(Contents()), decision, run)
      ensures buffered == Listed(old(Contents()), decision)
    {
      runs := runs[decision := run];
      buffered := if decision in eventsByDecision then eventsByDecision[decision] else [];
    }
  }

  lemma {:induction false} WithoutAt(ids: seq<string>, index: nat, id: string)
    requires index < |ids| && ids[index] == id && id !in ids[..index]
    ensures Without(ids, id) == ids[..index] + ids[index + 1..]
  {
    if index > 0 {
      assert ids[0] == ids[..index][0];
      assert ids[1..][..index - 1] == ids[..index][1..];
      WithoutAt(ids[1..], index - 1, id);
      assert ids[..index] + ids[index + 1..] == [ids[0]] + (ids[1..][..index - 1] + ids[1..][index..]);
    }
  }
}
