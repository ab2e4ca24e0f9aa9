/** The hand-off with the in-memory engine as its sink: every forward is a call of
    `Service.AddEvent`, and the engine goes on analysing and judging meanwhile. */
module EngineSink {
  import opened Text
  import opened Domain
  import opened Store
  import opened RunHistory
  import Json
  import Protocol
  import Ledger = EventLedger
  import HandOff
  import Service
  import World = Lifecycle

  /** The input both forwards build from a portable event; `bytes` spells its data. */
  function InputOf(e: Protocol.Event, bytes: Json.Raw -> string): Service.EventInput {
    Service.EventInput(e.id, e.sequence, e.kind, e.source.name, e.context.correlation, e.time,
                       if e.data.Some? then bytes(e.data.value) else "")
  }

  function ExternalIds(events: seq<Event>): (ids: seq<string>)
    ensures |ids| == |events|
  {
    seq(|events|, i requires 0 <= i < |events| => events[i].externalId)
  }

  /** The stored event is the portable one, field by field; one without a sequence number
      is numbered by the engine. */
  ghost predicate Carries(stored: Event, e: Protocol.Event, bytes: Json.Raw -> string) {
    && stored.externalId == e.id && stored.kind == e.kind && stored.source == e.source.name
    && stored.correlation == e.context.correlation && stored.occurredAt == e.time
    && (e.sequence != 0 ==> stored.sequence == e.sequence)
    && e.data.Some? && stored.payload == bytes(e.data.value)
  }

  ghost predicate Spells(bytes: Json.Raw -> string) {
    forall raw :: bytes(raw) != ""
  }

  lemma FoundExternal(events: seq<Event>, id: string)
    requires id != ""
    ensures FindExternal(events, id).Some? <==> id in ExternalIds(events)
  {
    if FindExternal(events, id).Some? {
      assert ExternalIds(events)[FindExternal(events, id).value] == id;
    }
  }

  lemma KnownTypesAreNamed(e: Protocol.Event)
    requires Protocol.Valid(e)
    ensures e.kind != "" && e.data.Some? && e.source.name != "" && e.time != 0
  {
    assert TrimSpace("") == "";
  }

  /** The input built from a valid event is stored as that event. */
  lemma NewEventCarries(e: Protocol.Event, bytes: Json.Raw -> string, n: nat, now: int, events: seq<Event>)
    requires Protocol.Valid(e)
    ensures Carries(Store.Numbered(events, Service.NewEvent(InputOf(e, bytes), n, now)), e, bytes)
  {
    KnownTypesAreNamed(e);
  }

  /** One event was added, or none. */
  ghost predicate Forwards(before: seq<Event>, after: seq<Event>, e: Protocol.Event, bytes: Json.Raw -> string) {
    && ExternalIds(after) == HandOff.SinkAdd(ExternalIds(before), e.id)
    && (after == before || exists stored :: after == before + [stored] && Carries(stored, e, bytes))
  }

  /** A validated event forwarded to an existing run is never refused; the run's external
      IDs change exactly as the abstract sink says, what is added is the event itself, and
      no other run changes. */
  lemma ForwardIsSinkAdd(db: Db, run: string, e: Protocol.Event, bytes: Json.Raw -> string, n: nat, now: int)
    requires Protocol.Valid(e) && Spells(bytes) && run in db.runs
    ensures var (after, result) := Service.AddEvent(db, run, InputOf(e, bytes), n, now);
            && result.Ok? && run in after.runs && Forwards(db.runs[run].events, after.runs[run].events, e, bytes)
            && after.runs == db.runs[run := db.runs[run].(events := after.runs[run].events)]
  {
    Protocol.ValidEventHasId(e);
    KnownTypesAreNamed(e);
    var input := InputOf(e, bytes);
    assert input.payload != "" && input.kind != "";
    AcceptedInputIsStored(db, run, input, n, now);
    NewEventCarries(e, bytes, n, now, db.runs[run].events);
    StoredIsSinkAdd(db, run, Service.NewEvent(input, n, now));
  }

  lemma AcceptedInputIsStored(db: Db, run: string, input: Service.EventInput, n: nat, now: int)
    requires input.payload != "" && input.kind != "" && run in db.runs
    ensures Service.AddEvent(db, run, input, n, now).1.Ok?
    ensures Service.AddEvent(db, run, input, n, now).0 == Store.AddEvent(db, run, Service.NewEvent(input, n, now)).0
  {
  }

  /** Deduplication by external ID is the abstract sink's addition. */
  lemma StoredIsSinkAdd(db: Db, run: string, e: Event)
    requires run in db.runs && e.externalId != ""
    ensures var after, events := Store.AddEvent(db, run, e).0, db.runs[run].events;
            && run in after.runs && after.runs == db.runs[run := db.runs[run].(events := after.runs[run].events)]
            && after.runs[run].events
               == (if e.externalId in ExternalIds(events) then events else events + [Store.Numbered(events, e)])
            && ExternalIds(after.runs[run].events) == HandOff.SinkAdd(ExternalIds(events), e.externalId)
  {
    var events := db.runs[run].events;
    FoundExternal(events, e.externalId);
    if FindExternal(events, e.externalId).None? {
      World.StoredEventChangesOneRun(db, run, e);
      assert ExternalIds(events + [Store.Numbered(events, e)]) == ExternalIds(events) + [e.externalId];
    }
  }

  // ---- The joint system

  /** `own` remembers which external IDs the engine's own callers have used, run by run; the
      sink of the hand-off counts the portable forwards only. */
  datatype Joint = Joint(system: HandOff.System, world: World.World, own: set<(string, string)>)

  datatype Step =
    | Portable(step: HandOff.Step, input: Service.RunInput, now: int)
    | Engine(call: World.Call, now: int)

  /** What the steps take as given: two hashes and the spelling of payloads. */
  datatype Given = Given(hash: Ledger.EventHash, hashes: Service.Hashes, bytes: Json.Raw -> string)

  function Forwarded(w: World.World, run: string, e: Protocol.Event, given: Given, now: int): World.World {
    World.After(w, World.Add(run, InputOf(e, given.bytes)), given.hashes, now)
  }

  predicate Taken(w: World.World, run: string, e: Protocol.Event, given: Given, now: int) {
    Service.AddEvent(w.db, run, InputOf(e, given.bytes), w.drawn, now).1.Ok?
  }

  function Fed(sink: map<string, seq<string>>, run: string, id: string): map<string, seq<string>> {
    if run in sink then sink[run := HandOff.SinkAdd(sink[run], id)] else sink
  }

  /** Ledger sections run as in `HandOff`; whether a forward succeeds is up to the engine. */
  ghost predicate PortableNext(a: Joint, step: HandOff.Step, b: Joint, input: Service.RunInput, given: Given, now: int) {
    var s, t := a.system, b.system;
    match step
    case Deliver(id) =>
      && id in s.flights && s.flights[id].Sending?
      && Taken(a.world, s.flights[id].run, s.flights[id].event, given, now)
      && b.world == Forwarded(a.world, s.flights[id].run, s.flights[id].event, given, now)
      && t == s.(sink := Fed(s.sink, s.flights[id].run, id), flights := s.flights - {id})
    case Refuse(id) =>
      && id in s.flights && s.flights[id].Sending?
      && !Taken(a.world, s.flights[id].run, s.flights[id].event, given, now)
      && b.world == Forwarded(a.world, s.flights[id].run, s.flights[id].event, given, now)
      && t == s.(flights := s.flights[id := HandOff.Refused(s.flights[id].run, s.flights[id].event)])
    case CreateRun(run) =>
      && Service.CreateRun(a.world.db, input, a.world.drawn, now).1.Ok?
      && run == Service.CreateRun(a.world.db, input, a.world.drawn, now).1.value.id
      && b.world == World.After(a.world, World.Create(input), given.hashes, now)
      && t == s.(sink := s.sink[run := []])
    case Push(run, ok) =>
      && run in s.evaluators
      && var ev := s.evaluators[run];
         && !ev.stopped && ev.pending != [] && ev.loaded.Read?
         && (ok <==> ev.loaded.event.Some? && Taken(a.world, run, ev.loaded.event.value, given, now))
         && b.world == (if ev.loaded.event.Some? then Forwarded(a.world, run, ev.loaded.event.value, given, now) else a.world)
         && t == if ok then s.(sink := Fed(s.sink, run, ev.loaded.event.value.id),
                               evaluators := s.evaluators[run := ev.(pending := ev.pending[1..], loaded := HandOff.Nothing)])
                 else s.(evaluators := s.evaluators[run := ev.(stopped := true)])
    case _ => HandOff.Next(s, step, t, given.hash) && b.world == a.world
  }

  /** Engine calls are free: they may add events to any run, portable ones included, under
      any external ID or none. */
  ghost predicate JointNext(a: Joint, step: Step, b: Joint, given: Given) {
    match step
    case Portable(s, input, now) => PortableNext(a, s, b, input, given, now) && b.own == a.own
    case Engine(call, now) =>
      && b.own == a.own + (if call.Add? then {(call.run, call.event.externalId)} else {})
      && b.system == a.system && b.world == World.After(a.world, call, given.hashes, now)
  }

  // ---- What it keeps

  ghost predicate AllValid(events: map<string, Protocol.Event>) {
    forall id | id in events :: Protocol.Valid(events[id])
  }

  /** Nothing was ever rolled back, so no evaluation finds an event gone. */
  ghost predicate Undisturbed(s: HandOff.System) {
    && s.rollbacks == 0 && s.stale == {}
    && (forall id | id in s.flights :: s.flights[id].Sending?)
    && (forall run | run in s.evaluators ::
          var ev := s.evaluators[run];
          && !ev.stopped && (forall id | id in ev.pending :: id in s.ledger.events)
          && (ev.loaded.Read? ==> ev.loaded.event.Some? && InLedger(s.ledger, ev.loaded.event.value)))
  }

  ghost predicate InLedger(l: Ledger.Ledger, e: Protocol.Event) {
    e.id in l.events && l.events[e.id] == e
  }

  /** The external IDs the engine's callers used on a run. */
  ghost function OwnOf(own: set<(string, string)>, run: string): set<string> {
    set p | p in own && p.0 == run :: p.1
  }

  /** Whatever else the run holds came out of the ledger unchanged. */
  ghost predicate FromLedger(events: seq<Event>, l: Ledger.Ledger, own: set<string>, bytes: Json.Raw -> string) {
    forall i | 0 <= i < |events| && events[i].externalId !in own ::
      events[i].externalId in l.events && Carries(events[i], l.events[events[i].externalId], bytes)
  }

  /** No external ID is held twice. */
  ghost predicate OnceEach(ids: seq<string>) {
    forall i, j | 0 <= i < j < |ids| :: ids[i] == ids[j] ==> ids[i] == ""
  }

  /** The run holds all that was forwarded to it, and nothing else but the engine's own. */
  ghost predicate RunAgrees(forwarded: seq<string>, ids: seq<string>, own: set<string>) {
    && OnceEach(ids)
    && (forall id | id in forwarded :: id in ids)
    && (forall id | id in ids :: id in own || id in forwarded)
  }

  ghost predicate SinkAgrees(sink: map<string, seq<string>>, own: set<(string, string)>, l: Ledger.Ledger, runs: map<string, Run>,
                             bytes: Json.Raw -> string) {
    forall r | r in sink ::
      r in runs && RunAgrees(sink[r], ExternalIds(runs[r].events), OwnOf(own, r)) && FromLedger(runs[r].events, l, OwnOf(own, r), bytes)
  }

  ghost predicate Inv(a: Joint, given: Given) {
    && HandOff.Inv(a.system) && World.Inv(a.world, given.hashes) && Spells(given.bytes)
    && AllValid(a.system.ledger.events) && Undisturbed(a.system)
    && SinkAgrees(a.system.sink, a.own, a.system.ledger, a.world.db.runs, given.bytes)
  }

  /** The runs keep their events. */
  ghost predicate EventsStay(runs: set<string>, a: Db, b: Db) {
    forall r | r in runs && r in a.runs :: r in b.runs && b.runs[r].events == a.runs[r].events
  }

  /** Engine calls leave alone the events of runs they do not add to. */
  lemma EngineKeepsEvents(w: World.World, call: World.Call, runs: set<string>, hashes: Service.Hashes, now: int)
    requires World.Inv(w, hashes) && (call.Add? ==> call.run !in runs)
    ensures EventsStay(runs, w.db, World.After(w, call, hashes, now).db)
  {
    hide *;
    World.InvParts(w, hashes);
    World.AfterEachCall(w, call, hashes, now);
    match call
    case Create(input) => CreateKeepsEvents(w, input, runs, hashes, now);
    case Add(run, event) => AddKeepsOtherEvents(w.db, run, event, runs, w.drawn, now);
    case Analyse(run, proposal) => AnalyseKeepsEvents(w, run, proposal, runs, hashes, now);
    case _ =>
      OtherCallsKeepRuns(w, call, hashes, now);
      SameRunsKeepEvents(runs, w.db, World.After(w, call, hashes, now).db);
  }

  lemma SameRunsKeepEvents(runs: set<string>, a: Db, b: Db)
    requires b.runs == a.runs
    ensures EventsStay(runs, a, b)
  {
  }

  lemma AddKeepsOtherEvents(db: Db, run: string, event: Service.EventInput, runs: set<string>, n: nat, now: int)
    requires run !in runs
    ensures EventsStay(runs, db, Service.AddEvent(db, run, event, n, now).0)
  {
    World.ServiceAddsAtMostOne(db, run, event, n, now);
    var e := Service.NewEvent(event, n, now);
    if run in db.runs && FindExternal(db.runs[run].events, e.externalId).None? {
      World.StoredEventChangesOneRun(db, run, e);
    }
  }

  lemma CreateKeepsEvents(w: World.World, input: Service.RunInput, runs: set<string>, hashes: Service.Hashes, now: int)
    requires World.Inv(w, hashes)
    ensures EventsStay(runs, w.db, World.After(w, World.Create(input), hashes, now).db)
  {
    if Service.CreateRun(w.db, input, w.drawn, now).1.Ok? {
      NewRunIsEmpty(w, input, hashes, now);
    }
  }

  lemma OtherCallsKeepRuns(w: World.World, call: World.Call, hashes: Service.Hashes, now: int)
    requires World.Inv(w, hashes) && (call.PlanChecks? || call.Execute? || call.Judge?)
    ensures World.After(w, call, hashes, now).db.runs == w.db.runs
  {
    hide *;
    World.InvParts(w, hashes);
    World.AfterEachCall(w, call, hashes, now);
    match call
    case PlanChecks(d, spec) => PlanKeepsRuns(w.db, d, spec, w.drawn, now);
    case Execute(check, request, executed) => ExecuteKeepsRuns(w.db, check, request, executed, hashes, now);
    case Judge(d, approved) => JudgeKeepsRuns(w.db, d, approved, hashes, now);
  }

  lemma AnalyseKeepsEvents(w: World.World, run: string, proposal: Option<Analysis>, runs: set<string>, hashes: Service.Hashes, now: int)
    requires World.Inv(w, hashes)
    ensures EventsStay(runs, w.db, World.After(w, World.Analyse(run, proposal), hashes, now).db)
  {
    hide World.AfterAnalysis, World.Inv;
    if World.Analyses(w.db, run, proposal) {
      AnalysisMarksOneRun(w, run, proposal.value, hashes, now);
    } else {
      World.AnalyzeResult(w.db, run, proposal, w.drawn, now);
    }
  }

  lemma AnalysisMarksOneRun(w: World.World, run: string, p: Analysis, hashes: Service.Hashes, now: int)
    requires World.Inv(w, hashes) && run in w.db.runs && w.db.runs[run].status.Ingesting?
    ensures World.AfterAnalysis(w, run, p, now).db.runs == w.db.runs[run := w.db.runs[run].(status := Analyzed)]
  {
    World.AnalysisIsSaved(w, run, p, now);
    SavingMarksTheRun(w.db, run, World.Relabel.Relabelled(p, w.drawn, now, w.db.runs[run].decision));
  }

  lemma NewRunIsEmpty(w: World.World, input: Service.RunInput, hashes: Service.Hashes, now: int)
    requires World.Inv(w, hashes) && Service.CreateRun(w.db, input, w.drawn, now).1.Ok?
    ensures var run := Service.CreateRun(w.db, input, w.drawn, now).1.value;
            && run.id != "" && run.id !in w.db.runs && run.events == []
            && World.After(w, World.Create(input), hashes, now).db.runs == w.db.runs[run.id := run]
  {
    var (run, decision) := Service.NewRun(input, w.drawn, now);
    World.NextIdIsFresh(w.db.runs, "run", w.drawn, w.drawn);
    CreatedRunIsNew(w.db, input, w.drawn, now, run, decision);
  }

  lemma CreatedRunIsNew(db: Db, input: Service.RunInput, n: nat, now: int, run: Run, decision: Decision)
    requires Service.NewRun(input, n, now) == (run, decision) && Service.CreateRun(db, input, n, now).1.Ok?
    ensures Service.CreateRun(db, input, n, now) == (Store.CreateRun(db, run, decision), Service.Ok(run))
    ensures run.id == NewId("run", n) && run.id != "" && run.events == []
  {
    assert |NewId("run", n)| > 0;
  }

  // ---- Every joint step is a step of the hand-off, and no forward is refused

  lemma ForwardKeepsWorld(w: World.World, run: string, e: Protocol.Event, given: Given, now: int)
    requires World.Inv(w, given.hashes) && Protocol.Valid(e) && Spells(given.bytes) && run in w.db.runs
    ensures Taken(w, run, e, given, now) && World.Inv(Forwarded(w, run, e, given, now), given.hashes)
    ensures var after := Forwarded(w, run, e, given, now).db.runs;
            && run in after && after == w.db.runs[run := w.db.runs[run].(events := after[run].events)]
            && Forwards(w.db.runs[run].events, after[run].events, e, given.bytes)
  {
    hide World.Inv, Protocol.Valid, Service.AddEvent;
    ForwardIsSinkAdd(w.db, run, e, given.bytes, w.drawn, now);
    World.CallKeepsInv(w, World.Add(run, InputOf(e, given.bytes)), given.hashes, now);
  }

  lemma ForwardedRun(forwarded: seq<string>, events: seq<Event>, after: seq<Event>, l: Ledger.Ledger, own: set<string>,
                     e: Protocol.Event, bytes: Json.Raw -> string)
    requires RunAgrees(forwarded, ExternalIds(events), own) && FromLedger(events, l, own, bytes)
    requires Forwards(events, after, e, bytes) && InLedger(l, e)
    ensures RunAgrees(HandOff.SinkAdd(forwarded, e.id), ExternalIds(after), own) && FromLedger(after, l, own, bytes)
  {
  }

  /** What the sink and the engine's runs are after a forward of a ledger event. */
  lemma ForwardedSink(sink: map<string, seq<string>>, own: set<(string, string)>, l: Ledger.Ledger, runs: map<string, Run>,
                      run: string, e: Protocol.Event, events: seq<Event>, bytes: Json.Raw -> string)
    requires SinkAgrees(sink, own, l, runs, bytes) && run in sink && InLedger(l, e)
    requires Forwards(runs[run].events, events, e, bytes)
    ensures SinkAgrees(Fed(sink, run, e.id), own, l, runs[run := runs[run].(events := events)], bytes)
  {
    hide RunAgrees, FromLedger, Forwards, InLedger, HandOff.SinkAdd;
    ForwardedRun(sink[run], runs[run].events, events, l, OwnOf(own, run), e, bytes);
  }

  /** A flight's or a loaded event is valid, is the ledger's, and its run exists in the engine. */
  ghost predicate Forwardable(a: Joint, run: string, e: Protocol.Event) {
    Protocol.Valid(e) && InLedger(a.system.ledger, e) && run in a.system.sink && run in a.world.db.runs
  }

  lemma FlightIsForwardable(a: Joint, id: string, given: Given)
    requires Inv(a, given) && id in a.system.flights
    ensures Forwardable(a, a.system.flights[id].run, a.system.flights[id].event) && a.system.flights[id].event.id == id
  {
    hide World.Inv, FromLedger, Protocol.Valid;
  }

  lemma LoadedIsForwardable(a: Joint, run: string, given: Given)
    requires Inv(a, given) && run in a.system.evaluators && a.system.evaluators[run].loaded.Read?
    ensures a.system.evaluators[run].loaded.event.Some? && Forwardable(a, run, a.system.evaluators[run].loaded.event.value)
  {
    hide World.Inv, FromLedger, Protocol.Valid;
    assert HandOff.Structured(a.system) && Undisturbed(a.system);
  }

  /** The portable step is one of `HandOff`, the engine state follows, and it was no refusal. */
  ghost predicate Follows(a: Joint, step: HandOff.Step, b: Joint, given: Given) {
    && HandOff.Next(a.system, step, b.system, given.hash) && !step.Refuse? && (step.Push? ==> step.ok)
    && World.Inv(b.world, given.hashes) && SinkAgrees(b.system.sink, a.own, b.system.ledger, b.world.db.runs, given.bytes)
  }

  /** A forward of a ledger event is taken, and the sink changes as the hand-off says. */
  lemma ForwardFollows(a: Joint, run: string, e: Protocol.Event, given: Given, now: int)
    requires Inv(a, given) && Forwardable(a, run, e)
    ensures Taken(a.world, run, e, given, now)
    ensures var after := Forwarded(a.world, run, e, given, now);
            && World.Inv(after, given.hashes)
            && SinkAgrees(Fed(a.system.sink, run, e.id), a.own, a.system.ledger, after.db.runs, given.bytes)
  {
    hide World.Inv, Protocol.Valid, HandOff.Inv, SinkAgrees, Forwards, Undisturbed, World.After, Forwarded, Taken, InLedger, AllValid,
         Fed;
    var after := Forwarded(a.world, run, e, given, now);
    ForwardKeepsWorld(a.world, run, e, given, now);
    ForwardedSink(a.system.sink, a.own, a.system.ledger, a.world.db.runs, run, e, after.db.runs[run].events, given.bytes);
  }

  lemma DeliverFollows(a: Joint, id: string, b: Joint, input: Service.RunInput, given: Given, now: int)
    requires Inv(a, given) && PortableNext(a, HandOff.Deliver(id), b, input, given, now)
    ensures Follows(a, HandOff.Deliver(id), b, given)
  {
    hide Inv, SinkAgrees, World.Inv, Taken, Forwarded, Protocol.Valid, InLedger, Service.CreateRun, HandOff.SinkAdd, World.After;
    FlightIsForwardable(a, id, given);
    ForwardFollows(a, a.system.flights[id].run, a.system.flights[id].event, given, now);
  }

  lemma FlightIsTaken(a: Joint, id: string, given: Given, now: int)
    requires Inv(a, given) && id in a.system.flights
    ensures Taken(a.world, a.system.flights[id].run, a.system.flights[id].event, given, now)
  {
    hide Inv, SinkAgrees, World.Inv, Taken, Forwarded;
    FlightIsForwardable(a, id, given);
    ForwardFollows(a, a.system.flights[id].run, a.system.flights[id].event, given, now);
  }

  lemma PushFollows(a: Joint, run: string, ok: bool, b: Joint, input: Service.RunInput, given: Given, now: int)
    requires Inv(a, given) && PortableNext(a, HandOff.Push(run, ok), b, input, given, now)
    ensures Follows(a, HandOff.Push(run, ok), b, given)
  {
    hide Inv, SinkAgrees, World.Inv, Taken, Forwarded, Protocol.Valid, InLedger, Service.CreateRun, HandOff.SinkAdd, World.After;
    LoadedIsForwardable(a, run, given);
    ForwardFollows(a, run, a.system.evaluators[run].loaded.event.value, given, now);
  }

  lemma CreatedSink(sink: map<string, seq<string>>, own: set<(string, string)>, l: Ledger.Ledger, runs: map<string, Run>, run: Run,
                    bytes: Json.Raw -> string)
    requires SinkAgrees(sink, own, l, runs, bytes) && run.id !in runs && run.events == []
    ensures run.id !in sink && SinkAgrees(sink[run.id := []], own, l, runs[run.id := run], bytes)
  {
    assert ExternalIds([]) == [];
  }

  lemma CreateRunFollows(a: Joint, run: string, b: Joint, input: Service.RunInput, given: Given, now: int)
    requires Inv(a, given) && PortableNext(a, HandOff.CreateRun(run), b, input, given, now)
    ensures Follows(a, HandOff.CreateRun(run), b, given)
  {
    hide HandOff.Inv, SinkAgrees, World.Inv, World.After, Service.CreateRun, Undisturbed, AllValid;
    NewRunIsEmpty(a.world, input, given.hashes, now);
    World.CallKeepsInv(a.world, World.Create(input), given.hashes, now);
    var created := Service.CreateRun(a.world.db, input, a.world.drawn, now).1.value;
    CreatedSink(a.system.sink, a.own, a.system.ledger, a.world.db.runs, created, given.bytes);
  }

  lemma PortableFollows(a: Joint, step: HandOff.Step, b: Joint, input: Service.RunInput, given: Given, now: int)
    requires Inv(a, given) && PortableNext(a, step, b, input, given, now)
    ensures Follows(a, step, b, given)
  {
    hide *;
    match step
    case Deliver(id) => DeliverFollows(a, id, b, input, given, now);
    case Refuse(id) => NeverRefused(a, id, b, input, given, now);
    case CreateRun(run) => CreateRunFollows(a, run, b, input, given, now);
    case Push(run, ok) => PushFollows(a, run, ok, b, input, given, now);
    case _ => LedgerStepFollows(a, step, b, input, given, now);
  }

  lemma NeverRefused(a: Joint, id: string, b: Joint, input: Service.RunInput, given: Given, now: int)
    requires Inv(a, given)
    ensures !PortableNext(a, HandOff.Refuse(id), b, input, given, now)
  {
    hide Inv, Taken, Forwarded;
    if id in a.system.flights {
      FlightIsTaken(a, id, given, now);
    }
  }

  /** A larger ledger, or the same. */
  lemma LargerLedger(sink: map<string, seq<string>>, own: set<(string, string)>, l: Ledger.Ledger, m: Ledger.Ledger,
                     runs: map<string, Run>, bytes: Json.Raw -> string)
    requires SinkAgrees(sink, own, l, runs, bytes) && LedgerGrows(l, m)
    ensures SinkAgrees(sink, own, m, runs, bytes)
  {
    hide Carries, RunAgrees;
    forall r | r in sink ensures FromLedger(runs[r].events, m, OwnOf(own, r), bytes) {
      assert FromLedger(runs[r].events, l, OwnOf(own, r), bytes);
    }
  }

  ghost predicate LedgerGrows(l: Ledger.Ledger, m: Ledger.Ledger) {
    forall id | id in l.events :: id in m.events && m.events[id] == l.events[id]
  }

  lemma LedgerStepFollows(a: Joint, step: HandOff.Step, b: Joint, input: Service.RunInput, given: Given, now: int)
    requires Inv(a, given) && PortableNext(a, step, b, input, given, now)
    requires step.Accept? || step.Rollback? || step.Publish? || step.Load?
    ensures Follows(a, step, b, given)
  {
    hide World.Inv, SinkAgrees, HandOff.Inv, AllValid, Taken, World.After, Service.CreateRun, Forwarded;
    LedgerStepKeepsSink(a.system, step, b.system, given.hash);
    LargerLedger(a.system.sink, a.own, a.system.ledger, b.system.ledger, a.world.db.runs, given.bytes);
  }

  lemma LedgerStepKeepsSink(s: HandOff.System, step: HandOff.Step, t: HandOff.System, hash: Ledger.EventHash)
    requires HandOff.Inv(s) && Undisturbed(s) && HandOff.Next(s, step, t, hash)
    requires step.Accept? || step.Rollback? || step.Publish? || step.Load?
    ensures t.sink == s.sink && LedgerGrows(s.ledger, t.ledger)
  {
    match step
    case Accept(e) =>
      AcceptGrowsLedger(s.ledger, e, hash);
    case _ =>
  }

  // ---- Nothing is disturbed

  lemma AcceptUndisturbed(s: HandOff.System, e: Protocol.Event, t: HandOff.System, hash: Ledger.EventHash)
    requires Ledger.Consistent(s.ledger) && Undisturbed(s) && AllValid(s.ledger.events) && HandOff.AcceptStep(s, e, t, hash)
    ensures Undisturbed(t) && AllValid(t.ledger.events)
  {
    hide Ledger.Consistent, Ledger.Accept, Ledger.Verdict, Protocol.Valid;
    AcceptChangesEvents(s.ledger, e, hash);
    AcceptGrowsLedger(s.ledger, e, hash);
  }

  lemma AcceptGrowsLedger(l: Ledger.Ledger, e: Protocol.Event, hash: Ledger.EventHash)
    requires Ledger.Consistent(l) && Protocol.Valid(e)
    ensures LedgerGrows(l, Ledger.Accept(l, e, hash))
  {
    if Ledger.Verdict(l, e, hash).Accepted? {
      Ledger.AcceptedIsNew(l, e, hash);
    }
  }

  lemma AcceptChangesEvents(l: Ledger.Ledger, e: Protocol.Event, hash: Ledger.EventHash)
    ensures Ledger.Accept(l, e, hash).events == l.events || Ledger.Accept(l, e, hash).events == l.events[e.id := e]
  {
  }

  lemma PublishUndisturbed(s: HandOff.System, d: string, run: string, t: HandOff.System)
    requires Undisturbed(s) && Ledger.ListsAgree(s.ledger) && HandOff.PublishStep(s, d, run, t)
    ensures Undisturbed(t) && t.ledger.events == s.ledger.events
  {
  }

  lemma LoadUndisturbed(s: HandOff.System, run: string, t: HandOff.System)
    requires Undisturbed(s) && Ledger.EventsAgree(s.ledger) && HandOff.LoadStep(s, run, t)
    ensures Undisturbed(t) && t.ledger.events == s.ledger.events
  {
    assert s.evaluators[run].pending[0] in s.evaluators[run].pending;
  }

  lemma PushUndisturbed(s: HandOff.System, run: string, t: HandOff.System)
    requires Undisturbed(s) && HandOff.PushStep(s, run, true, t)
    ensures Undisturbed(t) && t.ledger.events == s.ledger.events
  {
    assert forall id | id in s.evaluators[run].pending[1..] :: id in s.evaluators[run].pending;
  }

  lemma StepUndisturbed(s: HandOff.System, step: HandOff.Step, t: HandOff.System, hash: Ledger.EventHash)
    requires HandOff.Inv(s) && Undisturbed(s) && AllValid(s.ledger.events)
    requires HandOff.Next(s, step, t, hash) && !step.Refuse? && (step.Push? ==> step.ok)
    ensures Undisturbed(t) && AllValid(t.ledger.events)
  {
    hide HandOff.Structured;
    match step
    case Accept(e) => AcceptUndisturbed(s, e, t, hash);
    case Publish(d, run) => PublishUndisturbed(s, d, run, t);
    case Load(run) => LoadUndisturbed(s, run, t);
    case Push(run, ok) => PushUndisturbed(s, run, t);
    case _ => QuietStepUndisturbed(s, step, t, hash);
  }

  lemma QuietStepUndisturbed(s: HandOff.System, step: HandOff.Step, t: HandOff.System, hash: Ledger.EventHash)
    requires Undisturbed(s) && HandOff.Next(s, step, t, hash) && (step.Deliver? || step.Rollback? || step.CreateRun?)
    ensures Undisturbed(t) && t.ledger.events == s.ledger.events
  {
  }

  lemma JointStepKeepsInv(a: Joint, step: Step, b: Joint, given: Given)
    requires Inv(a, given) && JointNext(a, step, b, given)
    ensures Inv(b, given)
    ensures step.Portable? ==> HandOff.Next(a.system, step.step, b.system, given.hash) && !step.step.Refuse?
  {
    hide PortableNext, HandOff.Inv, HandOff.Next, World.After;
    match step
    case Portable(s, input, now) =>
      PortableFollows(a, s, b, input, given, now);
      HandOff.StepKeepsInv(a.system, s, b.system, given.hash);
      StepUndisturbed(a.system, s, b.system, given.hash);
    case Engine(call, now) =>
      World.CallKeepsInv(a.world, call, given.hashes, now);
      EngineKeepsSink(a, call, given, now);
  }

  lemma EngineKeepsSink(a: Joint, call: World.Call, given: Given, now: int)
    requires World.Inv(a.world, given.hashes)
    requires SinkAgrees(a.system.sink, a.own, a.system.ledger, a.world.db.runs, given.bytes)
    ensures var own := a.own + (if call.Add? then {(call.run, call.event.externalId)} else {});
            SinkAgrees(a.system.sink, own, a.system.ledger, World.After(a.world, call, given.hashes, now).db.runs, given.bytes)
  {
    hide World.Inv, World.After, RunAgrees, FromLedger;
    var others := a.system.sink.Keys - (if call.Add? then {call.run} else {});
    var runs, after := a.world.db.runs, World.After(a.world, call, given.hashes, now).db.runs;
    var own := a.own + (if call.Add? then {(call.run, call.event.externalId)} else {});
    EngineKeepsEvents(a.world, call, others, given.hashes, now);
    forall r | r in a.system.sink
      ensures r in after && RunAgrees(a.system.sink[r], ExternalIds(after[r].events), OwnOf(own, r))
              && FromLedger(after[r].events, a.system.ledger, OwnOf(own, r), given.bytes)
    {
      if r in others {
        assert OwnOf(own, r) == OwnOf(a.own, r);
      } else {
        OwnEventAdded(a.world, call.run, call.event, given.hashes, now);
        assert OwnOf(own, r) == OwnOf(a.own, r) + {call.event.externalId};
        OwnEventAgrees(a.system.sink[r], runs[r].events, after[r].events, a.system.ledger, OwnOf(a.own, r), call.event.externalId,
                       given.bytes);
      }
    }
  }

  /** One event with this external ID was added, or none. */
  ghost predicate AddsOwn(before: seq<Event>, after: seq<Event>, id: string) {
    || after == before
    || (|after| == |before| + 1 && after[..|before|] == before && after[|before|].externalId == id
        && (id == "" || id !in ExternalIds(before)))
  }

  lemma OwnEventAdded(w: World.World, run: string, event: Service.EventInput, hashes: Service.Hashes, now: int)
    requires run in w.db.runs
    ensures var after := World.After(w, World.Add(run, event), hashes, now).db.runs;
            run in after && AddsOwn(w.db.runs[run].events, after[run].events, event.externalId)
  {
    World.ServiceAddsAtMostOne(w.db, run, event, w.drawn, now);
    var e := Service.NewEvent(event, w.drawn, now);
    if FindExternal(w.db.runs[run].events, e.externalId).None? {
      World.StoredEventChangesOneRun(w.db, run, e);
    }
  }

  lemma OwnEventAgrees(forwarded: seq<string>, before: seq<Event>, after: seq<Event>, l: Ledger.Ledger, own: set<string>, id: string,
                       bytes: Json.Raw -> string)
    requires RunAgrees(forwarded, ExternalIds(before), own) && FromLedger(before, l, own, bytes) && AddsOwn(before, after, id)
    ensures RunAgrees(forwarded, ExternalIds(after), own + {id}) && FromLedger(after, l, own + {id}, bytes)
  {
    hide Carries;
    if after != before {
      assert ExternalIds(after) == ExternalIds(before) + [id];
    }
  }

  ghost predicate JointBehavior(states: seq<Joint>, steps: seq<Step>, given: Given) {
    && |states| == |steps| + 1 && Spells(given.bytes)
    && HandOff.Init(states[0].system) && states[0].world == World.START && states[0].own == {}
    && forall i | 0 <= i < |steps| :: JointNext(states[i], steps[i], states[i + 1], given)
  }

  lemma StartIsJoint(a: Joint, given: Given)
    requires HandOff.Init(a.system) && a.world == World.START && Spells(given.bytes)
    ensures Inv(a, given)
  {
    World.StartIsOk(given.hashes);
    HandOff.InitKeepsInv(a.system);
  }

  lemma {:induction false} JointKeepsInv(states: seq<Joint>, steps: seq<Step>, given: Given, i: nat)
    requires JointBehavior(states, steps, given) && i < |states|
    ensures Inv(states[i], given)
  {
    hide Inv, JointNext, Spells, HandOff.Init, HandOff.Next;
    if i == 0 {
      StartIsJoint(states[0], given);
    } else {
      JointKeepsInv(states, steps, given, i - 1);
      JointStepKeepsInv(states[i - 1], steps[i - 1], states[i], given);
    }
  }

  /** With the in-memory engine, over every interleaving of accepts, evaluations and engine
      calls of any kind: no forward fails, nothing is rolled back, no evaluation gets stuck,
      no listed event is lost, and each whose ID the engine's callers left alone is in exactly
      one of the three places. */
  lemma MemoryNeverRefuses(states: seq<Joint>, steps: seq<Step>, given: Given, i: nat)
    requires JointBehavior(states, steps, given) && i < |states|
    ensures forall k | 0 <= k < i && steps[k].Portable? :: !steps[k].step.Refuse? && !steps[k].step.Rollback?
    ensures forall run | run in states[i].system.evaluators :: !states[i].system.evaluators[run].stopped
    ensures forall d, id | d in states[i].system.ledger.runs && id in Ledger.Listed(states[i].system.ledger, d) ::
              Held(states[i], states[i].system.ledger.runs[d], id)
  {
    hide Inv, JointNext, Held, Ledger.Listed, Spells, HandOff.Init;
    JointKeepsInv(states, steps, given, i);
    NothingStopped(states[i], given);
    forall k | 0 <= k < i && steps[k].Portable? ensures !steps[k].step.Refuse? && !steps[k].step.Rollback? {
      JointKeepsInv(states, steps, given, k);
      NoStepRefuses(states[k], steps[k], states[k + 1], given);
    }
    forall d, id | d in states[i].system.ledger.runs && id in Ledger.Listed(states[i].system.ledger, d)
      ensures Held(states[i], states[i].system.ledger.runs[d], id)
    {
      EngineHoldsOnce(states[i], given, d, id);
    }
  }

  lemma NothingStopped(a: Joint, given: Given)
    requires Inv(a, given)
    ensures forall run | run in a.system.evaluators :: !a.system.evaluators[run].stopped
  {
    hide HandOff.Inv, World.Inv, SinkAgrees, AllValid, InLedger;
  }

  lemma NoStepRefuses(a: Joint, step: Step, b: Joint, given: Given)
    requires Inv(a, given) && JointNext(a, step, b, given) && step.Portable?
    ensures !step.step.Refuse? && !step.step.Rollback?
  {
    hide HandOff.Inv, World.Inv, SinkAgrees, AllValid, InLedger, PortableNext, JointNext;
    JointStepKeepsInv(a, step, b, given);
  }

  lemma EngineHoldsOnce(a: Joint, given: Given, d: string, id: string)
    requires Inv(a, given) && d in a.system.ledger.runs && id in Ledger.Listed(a.system.ledger, d)
    ensures Held(a, a.system.ledger.runs[d], id)
  {
    hide World.Inv, AllValid, InLedger, FromLedger, Ledger.Listed, HandOff.Structured, HandOff.Places, Ledger.Consistent,
         HandOff.ParentsEarlier;
    PublishedIsSunk(a, given, d);
    HandOff.StateHoldsOnce(a.system, d, id);
    var run := a.system.ledger.runs[d];
    assert id in OwnOf(a.own, run) ==> (run, id) in a.own;
  }

  lemma PublishedIsSunk(a: Joint, given: Given, d: string)
    requires Inv(a, given) && d in a.system.ledger.runs
    ensures a.system.ledger.runs[d] in a.system.sink && a.system.ledger.runs[d] in a.system.evaluators
  {
    hide World.Inv, AllValid, InLedger, SinkAgrees, Undisturbed, HandOff.Places, HandOff.FlightsAgree, HandOff.ListsAgree;
  }

  function One(b: bool): nat { if b then 1 else 0 }

  /** In one of the three places at least, and in one only unless the engine's callers used
      the ID on this run. */
  ghost predicate Held(a: Joint, run: string, id: string) {
    && run in a.world.db.runs
    && var places := One(HandOff.Pending(a.system, run, id)) + One(HandOff.InFlight(a.system, run, id))
                     + One(id in ExternalIds(a.world.db.runs[run].events));
       places >= 1 && ((run, id) !in a.own ==> places == 1)
  }

  /** The exception is real: a call of the engine's own under the ID of an event that still
      waits puts it in two places. */
  lemma UsedIdIsHeldTwice(a: Joint, b: Joint, run: string, event: Service.EventInput, given: Given, now: int)
    requires Inv(a, given) && JointNext(a, Engine(World.Add(run, event), now), b, given)
    requires run in a.world.db.runs && event.kind != "" && event.payload != "" && event.externalId != ""
    requires HandOff.Pending(a.system, run, event.externalId)
    ensures HandOff.Pending(b.system, run, event.externalId) && (run, event.externalId) in b.own
    ensures run in b.world.db.runs && event.externalId in ExternalIds(b.world.db.runs[run].events)
  {
    hide Inv, HandOff.Pending;
    AcceptedInputIsStored(a.world.db, run, event, a.world.drawn, now);
    StoredIsSinkAdd(a.world.db, run, Service.NewEvent(event, a.world.drawn, now));
  }

  /** The run's external IDs are the listed events and what the engine's callers added, none
      twice; when those added nothing, they are the list. */
  ghost predicate HoldsTheList(ids: seq<string>, listed: seq<string>, own: set<string>) {
    && OnceEach(ids)
    && (forall id | id in listed :: id in ids)
    && (forall id | id in ids :: id in own || id in listed)
    && (own == {} ==> Ledger.NoRepeats(ids) && |ids| == |listed|)
  }

  /** When the evaluator is through and nothing is in flight to the run, the engine run holds
      the listed events and its callers' own, none twice; and each event that is not of those
      callers carries the kind, source, correlation, time and payload of the ledger's event
      of that ID. */
  lemma EngineHoldsTheLedger(states: seq<Joint>, steps: seq<Step>, given: Given, i: nat, d: string)
    requires JointBehavior(states, steps, given) && i < |states|
    requires d in states[i].system.ledger.runs
    requires var run := states[i].system.ledger.runs[d];
             && run in states[i].system.evaluators && states[i].system.evaluators[run].pending == []
             && forall id :: !HandOff.InFlight(states[i].system, run, id)
    ensures var run, own := states[i].system.ledger.runs[d], OwnOf(states[i].own, states[i].system.ledger.runs[d]);
            && run in states[i].world.db.runs
            && FromLedger(states[i].world.db.runs[run].events, states[i].system.ledger, own, given.bytes)
            && HoldsTheList(ExternalIds(states[i].world.db.runs[run].events), Ledger.Listed(states[i].system.ledger, d), own)
  {
    hide *;
    JointKeepsInv(states, steps, given, i);
    QuietEngine(states[i], given, d);
  }

  lemma QuietEngine(a: Joint, given: Given, d: string)
    requires Inv(a, given) && d in a.system.ledger.runs
    requires var run := a.system.ledger.runs[d];
             && run in a.system.evaluators && a.system.evaluators[run].pending == []
             && forall id :: !HandOff.InFlight(a.system, run, id)
    ensures var run, own := a.system.ledger.runs[d], OwnOf(a.own, a.system.ledger.runs[d]);
            && run in a.world.db.runs && FromLedger(a.world.db.runs[run].events, a.system.ledger, own, given.bytes)
            && HoldsTheList(ExternalIds(a.world.db.runs[run].events), Ledger.Listed(a.system.ledger, d), own)
  {
    hide World.Inv, AllValid, FromLedger, HandOff.Inv, InLedger, Ledger.NoRepeats, Ledger.Listed, RunAgrees, HoldsTheList, OwnOf;
    PublishedIsSunk(a, given, d);
    HandOff.QuietStateAgrees(a.system, d);
    var run := a.system.ledger.runs[d];
    LedgerAgrees(a.system);
    ListedIdsAreNamed(a.system.ledger, d);
    QuietRunHolds(a.system.sink[run], ExternalIds(a.world.db.runs[run].events), Ledger.Listed(a.system.ledger, d), OwnOf(a.own, run));
  }

  lemma QuietRunHolds(forwarded: seq<string>, ids: seq<string>, listed: seq<string>, own: set<string>)
    requires RunAgrees(forwarded, ids, own)
    requires Ledger.NoRepeats(forwarded) && |forwarded| == |listed| && forall id :: id in forwarded <==> id in listed
    requires "" !in listed
    ensures HoldsTheList(ids, listed, own)
  {
    if own == {} {
      SameIdsSameLength(forwarded, ids);
    }
  }

  lemma {:induction false} SameIdsSameLength(a: seq<string>, b: seq<string>)
    requires Ledger.NoRepeats(a) && Ledger.NoRepeats(b) && forall id :: id in a <==> id in b
    ensures |a| == |b|
  {
    HandOff.NoRepeatsCount(a);
    HandOff.NoRepeatsCount(b);
    assert (set id | id in a) == (set id | id in b);
  }

  lemma ListedIdsAreNamed(l: Ledger.Ledger, d: string)
    requires Ledger.EventsAgree(l) && Ledger.ListsAgree(l)
    ensures "" !in Ledger.Listed(l, d)
  {
    assert "" in Ledger.Listed(l, d) ==> "" in l.events;
  }

  lemma LedgerAgrees(s: HandOff.System)
    requires HandOff.Inv(s)
    ensures Ledger.EventsAgree(s.ledger) && Ledger.ListsAgree(s.ledger)
  {
    assert Ledger.Consistent(s.ledger);
  }

  /** In every state, before anything is quiet, each event of a portable run is the ledger's
      or one the engine's callers added. */
  lemma EngineEventsAreTheLedgers(states: seq<Joint>, steps: seq<Step>, given: Given, i: nat, run: string)
    requires JointBehavior(states, steps, given) && i < |states| && run in states[i].system.sink
    ensures run in states[i].world.db.runs
    ensures FromLedger(states[i].world.db.runs[run].events, states[i].system.ledger, OwnOf(states[i].own, run), given.bytes)
  {
    hide JointBehavior, HandOff.Inv, World.Inv, AllValid, Undisturbed, FromLedger;
    JointKeepsInv(states, steps, given, i);
  }
}
