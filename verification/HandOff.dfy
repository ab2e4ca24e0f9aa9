/** The hand-off of ledger events to engine runs, as a step system: every step is one
    lock section of protocol.go or one call into the engine, and any number of accepts
    and evaluations are interleaved. */
module HandOff {
  import opened Text
  import opened Protocol
  import opened EventLedger
  import Header
  import Json

  /** An accept between its two lock sections. */
  datatype Flight =
    | Sending(run: string, event: Event)   // the engine call is under way
    | Refused(run: string, event: Event)   // it failed; the rollback is still to come

  /** What the evaluator read under the read lock: None when the event was gone. */
  datatype Loaded = Nothing | Read(event: Option<Event>)

  /** `protocolEvaluate` working through the IDs it copied. */
  datatype Evaluator = Evaluator(decision: string, pending: seq<string>, loaded: Loaded, stopped: bool)

  /** `sink` holds each engine run's external IDs in order; the last three fields are
      history: decisions for which a forward to a superseded run was refused since the
      current run was published, the acceptance time of each event, and rollbacks. */
  datatype System = System(
    ledger: Ledger,
    sink: map<string, seq<string>>,
    flights: map<string, Flight>,
    evaluators: map<string, Evaluator>,
    stale: set<string>,
    born: map<string, nat>,
    clock: nat,
    rollbacks: nat)

  ghost predicate Init(s: System) {
    s == System(EMPTY, map[], map[], map[], {}, map[], 0, 0)
  }

  /** The engine's `AddEvent`: an external ID it already has is not stored again. */
  function SinkAdd(ids: seq<string>, id: string): seq<string> {
    if id in ids then ids else ids + [id]
  }

  datatype Step =
    | Accept(event: Event)
    | Deliver(id: string)
    | Refuse(id: string)
    | Rollback(id: string)
    | CreateRun(run: string)
    | Publish(decision: string, run: string)
    | Load(run: string)
    | Push(run: string, ok: bool)

  ghost predicate AcceptStep(s: System, e: Event, t: System, hash: EventHash) {
    var outcome := Verdict(s.ledger, e, hash);
    && Valid(e)
    && t == s.(ledger := EventLedger.Accept(s.ledger, e, hash),
               flights := if outcome.Accepted? && outcome.run != "" then s.flights[e.id := Sending(outcome.run, e)]
                          else s.flights,
               born := if outcome.Accepted? then s.born[e.id := s.clock] else s.born,
               clock := s.clock + 1)
  }

  ghost predicate DeliverStep(s: System, id: string, t: System) {
    && id in s.flights && s.flights[id].Sending? && s.flights[id].run in s.sink
    && var run := s.flights[id].run;
       t == s.(sink := s.sink[run := SinkAdd(s.sink[run], id)], flights := s.flights - {id})
  }

  ghost predicate RefuseStep(s: System, id: string, t: System) {
    && id in s.flights && s.flights[id].Sending?
    && t == s.(flights := s.flights[id := Refused(s.flights[id].run, s.flights[id].event)])
  }

  ghost predicate RollbackStep(s: System, id: string, t: System) {
    && id in s.flights && s.flights[id].Refused?
    && var e := s.flights[id].event;
       t == s.(ledger := RollBack(s.ledger, e),
               flights := s.flights - {id},
               stale := if PublishedRun(s.ledger, e.context.decision) == s.flights[id].run then s.stale
                        else s.stale + {e.context.decision},
               rollbacks := s.rollbacks + 1)
  }

  ghost predicate CreateRunStep(s: System, run: string, t: System) {
    run != "" && run !in s.sink && t == s.(sink := s.sink[run := []])
  }

  ghost predicate PublishStep(s: System, d: string, run: string, t: System) {
    && d != "" && run in s.sink && run !in s.evaluators
    && t == s.(ledger := EventLedger.Publish(s.ledger, d, run),
               evaluators := s.evaluators[run := Evaluator(d, Listed(s.ledger, d), Nothing, false)],
               stale := s.stale - {d})
  }

  ghost predicate LoadStep(s: System, run: string, t: System) {
    && run in s.evaluators
    && var ev := s.evaluators[run];
       && !ev.stopped && ev.pending != [] && ev.loaded.Nothing?
       && var found := if ev.pending[0] in s.ledger.events then Some(s.ledger.events[ev.pending[0]]) else None;
          t == s.(evaluators := s.evaluators[run := ev.(loaded := Read(found))])
  }

  /** A forward of a loaded event; it fails when the event was gone, or at any time. */
  ghost predicate PushStep(s: System, run: string, ok: bool, t: System) {
    && run in s.evaluators && run in s.sink
    && var ev := s.evaluators[run];
       && !ev.stopped && ev.pending != [] && ev.loaded.Read?
       && if ev.loaded.event.Some? && ok then
            t == s.(sink := s.sink[run := SinkAdd(s.sink[run], ev.loaded.event.value.id)],
                    evaluators := s.evaluators[run := ev.(pending := ev.pending[1..], loaded := Nothing)])
          else t == s.(evaluators := s.evaluators[run := ev.(stopped := true)])
  }

  ghost predicate Next(s: System, step: Step, t: System, hash: EventHash) {
    match step
    case Accept(e) => AcceptStep(s, e, t, hash)
    case Deliver(id) => DeliverStep(s, id, t)
    case Refuse(id) => RefuseStep(s, id, t)
    case Rollback(id) => RollbackStep(s, id, t)
    case CreateRun(run) => CreateRunStep(s, run, t)
    case Publish(d, run) => PublishStep(s, d, run, t)
    case Load(run) => LoadStep(s, run, t)
    case Push(run, ok) => PushStep(s, run, ok, t)
  }

  // ---- The invariant

  /** The runs the ledger publishes, the evaluators and the engine agree. */
  ghost predicate RunsAgree(s: System) {
    && (forall run | run in s.sink :: run != "")
    && (forall run | run in s.evaluators :: run in s.sink && s.evaluators[run].decision != "")
    && (forall run | run in s.sink && run !in s.evaluators :: s.sink[run] == [])
    && (forall d | d in s.ledger.runs ::
          s.ledger.runs[d] in s.evaluators && s.evaluators[s.ledger.runs[d]].decision == d)
    && (forall run | run in s.evaluators :: s.evaluators[run].decision in s.ledger.runs)
  }

  ghost predicate FlightsAgree(s: System) {
    forall id | id in s.flights ::
      && s.flights[id].event.id == id
      && id in s.ledger.events && s.ledger.events[id] == s.flights[id].event
      && s.flights[id].run in s.evaluators
      && s.evaluators[s.flights[id].run].decision == s.flights[id].event.context.decision
  }

  /** No list anywhere holds an ID twice, and a loaded event is the next pending one. */
  ghost predicate ListsAgree(s: System) {
    && (forall run | run in s.sink :: NoRepeats(s.sink[run]))
    && (forall run | run in s.evaluators ::
          var ev := s.evaluators[run];
          && NoRepeats(ev.pending)
          && (ev.loaded.Read? ==> ev.pending != [])
          && (ev.loaded.Read? && ev.loaded.event.Some? ==> ev.loaded.event.value.id == ev.pending[0]))
  }

  ghost predicate Pending(s: System, run: string, id: string) {
    run in s.evaluators && id in s.evaluators[run].pending
  }

  ghost predicate InFlight(s: System, run: string, id: string) {
    id in s.flights && s.flights[id].run == run
  }

  ghost predicate InEngine(s: System, run: string, id: string) {
    run in s.sink && id in s.sink[run]
  }

  ghost predicate Placed(s: System, run: string, id: string) {
    Pending(s, run, id) || InFlight(s, run, id) || InEngine(s, run, id)
  }

  /** Nothing listed is lost: it is pending, in flight, or in the published run. */
  ghost predicate Covered(s: System, d: string) {
    d in s.ledger.runs && s.ledger.runs[d] in s.evaluators && !s.evaluators[s.ledger.runs[d]].stopped ==>
      forall id | id in Listed(s.ledger, d) :: Placed(s, s.ledger.runs[d], id)
  }

  /** The ID is in at most one place, and nowhere unless the decision lists it. */
  ghost predicate Alone(s: System, d: string, run: string, id: string) {
    && (Pending(s, run, id) ==> !InFlight(s, run, id) && !InEngine(s, run, id) && id in Listed(s.ledger, d))
    && (InEngine(s, run, id) ==> !InFlight(s, run, id) && id in Listed(s.ledger, d))
  }

  ghost predicate Exclusive(s: System, d: string) {
    d in s.ledger.runs && d !in s.stale ==> forall id :: Alone(s, d, s.ledger.runs[d], id)
  }

  /** Each event's parent was accepted before it, with a smaller sequence number where
      both carry one in the same written partition. */
  ghost predicate ParentsEarlier(s: System) {
    && (forall id | id in s.ledger.events :: id in s.born && s.born[id] < s.clock)
    && (s.rollbacks == 0 ==>
          forall id | id in s.ledger.events && s.ledger.events[id].context.parent != "" ::
            var e := s.ledger.events[id];
            && e.context.parent in s.ledger.events
            && s.born[e.context.parent] < s.born[id]
            && ParentPrecedes(s.ledger.events[e.context.parent], e))
  }

  ghost predicate Structured(s: System) {
    RunsAgree(s) && FlightsAgree(s) && ListsAgree(s)
  }

  ghost predicate Places(s: System, d: string) {
    Covered(s, d) && Exclusive(s, d)
  }

  /** What `Places` says of one ID. */
  ghost predicate PlaceOk(s: System, d: string, x: string) {
    d in s.ledger.runs ==>
      var published := s.ledger.runs[d];
      && (d !in s.stale ==> Alone(s, d, published, x))
      && (published in s.evaluators && !s.evaluators[published].stopped && x in Listed(s.ledger, d) ==> Placed(s, published, x))
  }

  lemma PlacesPointwise(s: System, t: System, d: string)
    requires Places(s, d) && forall x | PlaceOk(s, d, x) :: PlaceOk(t, d, x)
    ensures Places(t, d)
  {
    PlacesEach(s, d);
    PlacesEach(t, d);
  }

  lemma PlacesEach(s: System, d: string)
    ensures Places(s, d) <==> forall x :: PlaceOk(s, d, x)
  {
    hide Alone, Placed, Listed;
    if forall x :: PlaceOk(s, d, x) {
      forall x | d in s.ledger.runs && d !in s.stale ensures Alone(s, d, s.ledger.runs[d], x) {
        assert PlaceOk(s, d, x);
      }
      forall x | d in s.ledger.runs && s.ledger.runs[d] in s.evaluators && !s.evaluators[s.ledger.runs[d]].stopped && x in Listed(s.ledger, d)
        ensures Placed(s, s.ledger.runs[d], x)
      {
        assert PlaceOk(s, d, x);
      }
    }
  }

  ghost predicate Inv(s: System) {
    Consistent(s.ledger) && Structured(s) && ParentsEarlier(s) && forall d :: Places(s, d)
  }

  // ---- Accept

  lemma SameRunsAgree(s: System, t: System)
    requires RunsAgree(s) && ListsAgree(s) && t.ledger.runs == s.ledger.runs && t.sink == s.sink && t.evaluators == s.evaluators
    ensures RunsAgree(t) && ListsAgree(t)
  {
  }

  lemma AcceptKeepsStructure(s: System, e: Event, run: string, t: System)
    requires EventsAgree(s.ledger) && Structured(s)
    requires e.id !in s.ledger.events
    requires run == PublishedRun(s.ledger, e.context.decision)
    requires t.ledger.events == s.ledger.events[e.id := e] && t.ledger.runs == s.ledger.runs
    requires t.sink == s.sink && t.evaluators == s.evaluators
    requires t.flights == if run != "" then s.flights[e.id := Sending(run, e)] else s.flights
    ensures Structured(t)
  {
    hide RunsAgree, ListsAgree;
    SameRunsAgree(s, t);
  }

  lemma NewIsUnlisted(l: Ledger, id: string, d: string)
    requires EventLedger.ListsAgree(l) && id !in l.events
    ensures id !in Listed(l, d)
  {
  }

  lemma PublishedIsNamed(s: System, d: string)
    requires Structured(s)
    ensures d in s.ledger.runs ==> s.ledger.runs[d] != ""
  {
  }

  lemma AcceptKeepsPlace(s: System, e: Event, run: string, t: System, d: string, x: string)
    requires EventLedger.ListsAgree(s.ledger) && Structured(s) && PlaceOk(s, d, x)
    requires e.id !in s.ledger.events
    requires run == PublishedRun(s.ledger, e.context.decision)
    requires Listed(t.ledger, d) == Listed(s.ledger, d) + if d == e.context.decision && d != "" then [e.id] else []
    requires t.ledger.runs == s.ledger.runs && t.sink == s.sink && t.evaluators == s.evaluators && t.stale == s.stale
    requires t.flights == if run != "" then s.flights[e.id := Sending(run, e)] else s.flights
    ensures PlaceOk(t, d, x)
  {
    hide Listed, Structured, EventLedger.ListsAgree;
    NewIsUnlisted(s.ledger, e.id, d);
    PublishedIsNamed(s, d);
  }

  lemma AcceptKeepsPlaces(s: System, e: Event, run: string, t: System, d: string)
    requires EventLedger.ListsAgree(s.ledger) && Structured(s) && Places(s, d)
    requires e.id !in s.ledger.events
    requires run == PublishedRun(s.ledger, e.context.decision)
    requires Listed(t.ledger, d) == Listed(s.ledger, d) + if d == e.context.decision && d != "" then [e.id] else []
    requires t.ledger.runs == s.ledger.runs && t.sink == s.sink && t.evaluators == s.evaluators && t.stale == s.stale
    requires t.flights == if run != "" then s.flights[e.id := Sending(run, e)] else s.flights
    ensures Places(t, d)
  {
    hide Places, PlaceOk;
    forall x | PlaceOk(s, d, x) ensures PlaceOk(t, d, x) {
      AcceptKeepsPlace(s, e, run, t, d, x);
    }
    PlacesPointwise(s, t, d);
  }

  lemma AcceptKeepsParents(s: System, e: Event, t: System)
    requires Consistent(s.ledger) && ParentsEarlier(s)
    requires e.id !in s.ledger.events
    requires e.context.parent != "" ==>
               e.context.parent in s.ledger.events && ParentPrecedes(s.ledger.events[e.context.parent], e)
    requires t.ledger.events == s.ledger.events[e.id := e]
    requires t.born == s.born[e.id := s.clock] && t.clock == s.clock + 1 && t.rollbacks == s.rollbacks
    ensures ParentsEarlier(t)
  {
    hide Consistent, ParentPrecedes;
  }

  lemma AcceptKeepsInv(s: System, e: Event, t: System, hash: EventHash)
    requires Inv(s) && AcceptStep(s, e, t, hash)
    ensures Inv(t)
  {
    ValidEventHasId(e);
    AcceptKeepsConsistent(s.ledger, e, hash);
    if Verdict(s.ledger, e, hash).Accepted? {
      AcceptedIsNew(s.ledger, e, hash);
      RecordKeepsInv(s, e, t);
    } else {
      forall d ensures Places(t, d) { WaitingKeepsPlaces(s, t, d); }
    }
  }

  lemma WaitingKeepsPlaces(s: System, t: System, d: string)
    requires Places(s, d) && t == s.(clock := t.clock)
    ensures Places(t, d)
  {
    assert forall run, x :: Placed(t, run, x) <==> Placed(s, run, x);
    assert forall run, x :: Alone(t, d, run, x) <==> Alone(s, d, run, x);
  }

  lemma RecordKeepsInv(s: System, e: Event, t: System)
    requires Inv(s) && e.id !in s.ledger.events
    requires e.context.parent != "" ==>
               e.context.parent in s.ledger.events && ParentPrecedes(s.ledger.events[e.context.parent], e)
    requires var run := PublishedRun(s.ledger, e.context.decision);
             t == s.(ledger := Record(s.ledger, e),
                     flights := if run != "" then s.flights[e.id := Sending(run, e)] else s.flights,
                     born := s.born[e.id := s.clock], clock := s.clock + 1)
    ensures Structured(t) && ParentsEarlier(t) && forall d :: Places(t, d)
  {
    var run := PublishedRun(s.ledger, e.context.decision);
    AcceptKeepsStructure(s, e, run, t);
    AcceptKeepsParents(s, e, t);
    forall d ensures Places(t, d) {
      RecordLists(s.ledger, e, d);
      AcceptKeepsPlaces(s, e, run, t, d);
    }
  }

  // ---- Deliver and Refuse

  lemma DeliverKeepsRuns(s: System, id: string, t: System)
    requires RunsAgree(s) && FlightsAgree(s) && DeliverStep(s, id, t)
    ensures RunsAgree(t)
  {
  }

  lemma DeliverKeepsFlights(s: System, id: string, t: System)
    requires FlightsAgree(s) && DeliverStep(s, id, t)
    ensures FlightsAgree(t)
  {
  }

  lemma DeliverKeepsStructure(s: System, id: string, t: System)
    requires Structured(s) && DeliverStep(s, id, t)
    ensures Structured(t)
  {
    hide RunsAgree, FlightsAgree;
    DeliverKeepsRuns(s, id, t);
    DeliverKeepsFlights(s, id, t);
  }

  lemma DeliverKeepsPlace(s: System, id: string, t: System, d: string, x: string)
    requires EventLedger.ListsAgree(s.ledger) && Structured(s) && PlaceOk(s, d, x) && DeliverStep(s, id, t)
    ensures PlaceOk(t, d, x)
  {
    hide Listed, Structured, EventLedger.ListsAgree;
    FlightIsListed(s, id);
  }

  lemma FlightIsListed(s: System, id: string)
    requires EventLedger.ListsAgree(s.ledger) && Structured(s) && id in s.flights
    ensures forall d | d in s.ledger.runs && s.ledger.runs[d] == s.flights[id].run :: id in Listed(s.ledger, d)
  {
  }

  lemma DeliverKeepsPlaces(s: System, id: string, t: System, d: string)
    requires EventLedger.ListsAgree(s.ledger) && Structured(s) && Places(s, d) && DeliverStep(s, id, t)
    ensures Places(t, d)
  {
    hide Places, PlaceOk;
    forall x | PlaceOk(s, d, x) ensures PlaceOk(t, d, x) {
      DeliverKeepsPlace(s, id, t, d, x);
    }
    PlacesPointwise(s, t, d);
  }

  lemma RefuseKeepsStructure(s: System, id: string, t: System)
    requires Structured(s) && RefuseStep(s, id, t)
    ensures Structured(t)
  {
    hide RunsAgree, ListsAgree;
    SameRunsAgree(s, t);
  }

  lemma RefuseKeepsPlace(s: System, id: string, t: System, d: string, x: string)
    requires Structured(s) && PlaceOk(s, d, x) && RefuseStep(s, id, t)
    ensures PlaceOk(t, d, x)
  {
    hide Structured, Listed;
  }

  lemma RefuseKeepsPlaces(s: System, id: string, t: System, d: string)
    requires Structured(s) && Places(s, d) && RefuseStep(s, id, t)
    ensures Places(t, d)
  {
    hide Places, PlaceOk;
    forall x | PlaceOk(s, d, x) ensures PlaceOk(t, d, x) {
      RefuseKeepsPlace(s, id, t, d, x);
    }
    PlacesPointwise(s, t, d);
  }

  // ---- Rollback

  lemma RollbackKeepsStructure(s: System, id: string, t: System)
    requires Structured(s) && RollbackStep(s, id, t)
    ensures Structured(t)
  {
    assert t.ledger.events == s.ledger.events - {id};
  }

  lemma RollbackKeepsPlace(s: System, id: string, t: System, d: string, x: string)
    requires Structured(s) && PlaceOk(s, d, x) && RollbackStep(s, id, t)
    requires forall x :: x in Listed(t.ledger, d) <==> x in Listed(s.ledger, d) && x != id
    ensures PlaceOk(t, d, x)
  {
    hide NoRepeats, ListsAgree;
    var e := s.flights[id].event;
    assert t.ledger.runs == s.ledger.runs;
  }

  lemma RollbackKeepsPlaces(s: System, id: string, t: System, d: string)
    requires Structured(s) && Places(s, d) && RollbackStep(s, id, t)
    requires forall x :: x in Listed(t.ledger, d) <==> x in Listed(s.ledger, d) && x != id
    ensures Places(t, d)
  {
    hide Places, PlaceOk;
    forall x | PlaceOk(s, d, x) ensures PlaceOk(t, d, x) {
      RollbackKeepsPlace(s, id, t, d, x);
    }
    PlacesPointwise(s, t, d);
  }

  lemma RollbackKeepsInv(s: System, id: string, t: System)
    requires Inv(s) && RollbackStep(s, id, t)
    ensures Inv(t)
  {
    var e := s.flights[id].event;
    RollBackKeepsConsistent(s.ledger, e);
    RollbackKeepsStructure(s, id, t);
    forall d ensures Places(t, d) {
      RollBackUnlists(s.ledger, e, d);
      RollbackKeepsPlaces(s, id, t, d);
    }
  }

  // ---- The evaluator

  lemma CreateRunKeepsStructure(s: System, run: string, t: System)
    requires Structured(s) && CreateRunStep(s, run, t)
    ensures Structured(t)
  {
  }

  lemma CreateRunKeepsPlaces(s: System, run: string, t: System, d: string)
    requires Structured(s) && Places(s, d) && CreateRunStep(s, run, t)
    ensures Places(t, d)
  {
    if d in t.ledger.runs {
      var published := t.ledger.runs[d];
      forall x ensures d !in t.stale ==> Alone(t, d, published, x)
               ensures published in t.evaluators && !t.evaluators[published].stopped && x in Listed(t.ledger, d) ==> Placed(t, published, x) {
        assert d !in s.stale ==> Alone(s, d, published, x);
        assert x in Listed(s.ledger, d) && published in s.evaluators && !s.evaluators[published].stopped ==> Placed(s, published, x);
      }
    }
  }

  lemma PublishKeepsStructure(s: System, d: string, run: string, t: System)
    requires EventLedger.ListsAgree(s.ledger) && Structured(s) && PublishStep(s, d, run, t)
    ensures Structured(t)
  {
    assert NoRepeats(Listed(s.ledger, d));
    PublishKeepsRuns(s, d, run, t);
  }

  lemma PublishKeepsRuns(s: System, d: string, run: string, t: System)
    requires RunsAgree(s) && FlightsAgree(s) && PublishStep(s, d, run, t)
    ensures RunsAgree(t) && FlightsAgree(t)
  {
    hide FlightsAgree;
    assert t.ledger.runs == s.ledger.runs[d := run] && t.ledger.events == s.ledger.events;
    PublishKeepsFlights(s, d, run, t);
  }

  lemma PublishKeepsFlights(s: System, d: string, run: string, t: System)
    requires FlightsAgree(s) && PublishStep(s, d, run, t)
    ensures FlightsAgree(t)
  {
  }

  lemma PublishKeepsPlaces(s: System, decision: string, run: string, t: System, d: string)
    requires Structured(s) && Places(s, d) && PublishStep(s, decision, run, t)
    ensures Places(t, d)
  {
    assert Listed(t.ledger, d) == Listed(s.ledger, d);
    if d in t.ledger.runs {
      var published := t.ledger.runs[d];
      forall x ensures d !in t.stale ==> Alone(t, d, published, x)
               ensures published in t.evaluators && !t.evaluators[published].stopped && x in Listed(t.ledger, d) ==> Placed(t, published, x) {
        if d == decision {
          assert !InFlight(s, run, x) && !InEngine(s, run, x);
        } else {
          assert d !in s.stale ==> Alone(s, d, published, x);
          assert x in Listed(s.ledger, d) && published in s.evaluators && !s.evaluators[published].stopped ==> Placed(s, published, x);
        }
      }
    }
  }

  lemma RunIsSunk(s: System, run: string)
    requires RunsAgree(s) && run in s.evaluators
    ensures run in s.sink
  {
  }

  lemma LoadKeepsStructure(s: System, run: string, t: System)
    requires EventsAgree(s.ledger) && Structured(s) && LoadStep(s, run, t)
    ensures Structured(t)
  {
    hide RunsAgree, FlightsAgree;
    var ev := t.evaluators[run];
    RunIsSunk(s, run);
    assert s.sink[run := s.sink[run]] == s.sink;
    ProgressKeepsAgreement(s, run, s.sink[run], ev, t);
  }

  lemma LoadKeepsPlaces(s: System, run: string, t: System, d: string)
    requires Structured(s) && Places(s, d) && LoadStep(s, run, t)
    ensures Places(t, d)
  {
    if d in t.ledger.runs {
      var published := t.ledger.runs[d];
      forall x ensures d !in t.stale ==> Alone(t, d, published, x)
               ensures published in t.evaluators && !t.evaluators[published].stopped && x in Listed(t.ledger, d) ==> Placed(t, published, x) {
        assert d !in s.stale ==> Alone(s, d, published, x);
        assert x in Listed(s.ledger, d) && published in s.evaluators && !s.evaluators[published].stopped ==> Placed(s, published, x);
      }
    }
  }

  lemma PushKeepsStructure(s: System, run: string, ok: bool, t: System)
    requires Structured(s) && PushStep(s, run, ok, t)
    ensures Structured(t)
  {
    hide FlightsAgree, RunsAgree;
    var pending := s.evaluators[run].pending;
    assert NoRepeats(pending) && NoRepeats(pending[1..]);
    assert t.sink == s.sink[run := t.sink[run]];
    assert t.evaluators == s.evaluators[run := t.evaluators[run]];
    ProgressKeepsAgreement(s, run, t.sink[run], t.evaluators[run], t);
  }

  /** Only one run's list and its evaluator's progress change. */
  lemma ProgressKeepsAgreement(s: System, run: string, ids: seq<string>, ev: Evaluator, t: System)
    requires RunsAgree(s) && FlightsAgree(s) && run in s.evaluators && run in s.sink
    requires t.ledger == s.ledger && t.flights == s.flights
    requires t.sink == s.sink[run := ids]
    requires t.evaluators == s.evaluators[run := ev] && ev.decision == s.evaluators[run].decision
    ensures RunsAgree(t) && FlightsAgree(t)
  {
    hide RunsAgree, FlightsAgree;
    ProgressKeepsRuns(s, run, ids, ev, t);
    ProgressKeepsFlights(s, run, ids, ev, t);
  }

  lemma ProgressKeepsRuns(s: System, run: string, ids: seq<string>, ev: Evaluator, t: System)
    requires RunsAgree(s) && run in s.evaluators && t.ledger == s.ledger && t.sink == s.sink[run := ids] && run in s.sink
    requires t.evaluators == s.evaluators[run := ev] && ev.decision == s.evaluators[run].decision
    ensures RunsAgree(t)
  {
  }

  lemma ProgressKeepsFlights(s: System, run: string, ids: seq<string>, ev: Evaluator, t: System)
    requires FlightsAgree(s) && run in s.evaluators && t.ledger == s.ledger && t.flights == s.flights
    requires t.evaluators == s.evaluators[run := ev] && ev.decision == s.evaluators[run].decision
    ensures FlightsAgree(t)
  {
  }

  lemma PushKeepsPlace(s: System, run: string, ok: bool, t: System, d: string, x: string)
    requires Structured(s) && PlaceOk(s, d, x) && PushStep(s, run, ok, t)
    ensures PlaceOk(t, d, x)
  {
    hide Listed, FlightsAgree, RunsAgree;
    var pending := s.evaluators[run].pending;
    assert forall x :: x in pending <==> x == pending[0] || x in pending[1..];
    assert pending[0] !in pending[1..];
  }

  lemma PushKeepsPlaces(s: System, run: string, ok: bool, t: System, d: string)
    requires Structured(s) && Places(s, d) && PushStep(s, run, ok, t)
    ensures Places(t, d)
  {
    hide Places, PlaceOk;
    forall x | PlaceOk(s, d, x) ensures PlaceOk(t, d, x) {
      PushKeepsPlace(s, run, ok, t, d, x);
    }
    PlacesPointwise(s, t, d);
  }

  /** Steps that leave the ledger's contents alone. */
  lemma RestKeepsInv(s: System, step: Step, t: System, hash: EventHash)
    requires Inv(s) && Next(s, step, t, hash) && !step.Accept? && !step.Rollback? && !step.Publish?
    ensures Structured(t) && forall d :: Places(t, d)
  {
    hide Structured;
    match step
    case Deliver(id) =>
      DeliverKeepsStructure(s, id, t);
      forall d ensures Places(t, d) { DeliverKeepsPlaces(s, id, t, d); }
    case Refuse(id) =>
      RefuseKeepsStructure(s, id, t);
      forall d ensures Places(t, d) { RefuseKeepsPlaces(s, id, t, d); }
    case CreateRun(run) =>
      CreateRunKeepsStructure(s, run, t);
      forall d ensures Places(t, d) { CreateRunKeepsPlaces(s, run, t, d); }
    case Load(run) =>
      LoadKeepsStructure(s, run, t);
      forall d ensures Places(t, d) { LoadKeepsPlaces(s, run, t, d); }
    case Push(run, ok) =>
      PushKeepsStructure(s, run, ok, t);
      forall d ensures Places(t, d) { PushKeepsPlaces(s, run, ok, t, d); }
  }

  lemma PublishKeepsInv(s: System, decision: string, run: string, t: System)
    requires Inv(s) && PublishStep(s, decision, run, t)
    ensures Inv(t)
  {
    PublishKeepsConsistent(s.ledger, decision, run);
    PublishKeepsStructure(s, decision, run, t);
    forall d ensures Places(t, d) { PublishKeepsPlaces(s, decision, run, t, d); }
  }

  /** Every step of the system keeps the invariant. */
  lemma StepKeepsInv(s: System, step: Step, t: System, hash: EventHash)
    requires Inv(s) && Next(s, step, t, hash)
    ensures Inv(t)
  {
    hide RollbackStep, Structured, CreateRunStep, DeliverStep, LoadStep, PushStep, RefuseStep, Valid;
    match step
    case Accept(e) => AcceptKeepsInv(s, e, t, hash);
    case Rollback(id) => RollbackKeepsInv(s, id, t);
    case Publish(d, run) => PublishKeepsInv(s, d, run, t);
    case _ =>
      RestKeepsInv(s, step, t, hash);
      RestKeepsLedger(s, step, t, hash);
  }

  lemma RestKeepsLedger(s: System, step: Step, t: System, hash: EventHash)
    requires Next(s, step, t, hash) && !step.Accept? && !step.Rollback? && !step.Publish?
    ensures t.ledger == s.ledger && t.born == s.born && t.clock == s.clock && t.rollbacks == s.rollbacks
  {
  }

  // ---- Whole runs

  /** states[0] is initial and each state follows from the one before by steps[i]. */
  ghost predicate Behavior(states: seq<System>, steps: seq<Step>, hash: EventHash) {
    && |states| == |steps| + 1
    && Init(states[0])
    && forall i | 0 <= i < |steps| :: Next(states[i], steps[i], states[i + 1], hash)
  }

  lemma InitKeepsInv(s: System)
    requires Init(s)
    ensures Inv(s)
  {
    EmptyIsConsistent();
  }

  lemma {:induction false} ReachableKeepsInv(states: seq<System>, steps: seq<Step>, hash: EventHash, i: nat)
    requires Behavior(states, steps, hash) && i < |states|
    ensures Inv(states[i])
  {
    hide Inv, Next, Init;
    if i == 0 {
      InitKeepsInv(states[0]);
    } else {
      ReachableKeepsInv(states, steps, hash, i - 1);
      StepKeepsInv(states[i - 1], steps[i - 1], states[i], hash);
    }
  }

  lemma StateHoldsOnce(s: System, d: string, id: string)
    requires Inv(s) && d in s.ledger.runs && id in Listed(s.ledger, d)
    ensures HeldOnce(s, d, id)
  {
    assert Places(s, d);
    assert d !in s.stale ==> Alone(s, d, s.ledger.runs[d], id);
  }

  /** The event is in one place at least unless the evaluation stopped, and in one at
      most unless a forward to a superseded run was refused since the publication. */
  ghost predicate HeldOnce(s: System, d: string, id: string)
    requires d in s.ledger.runs
  {
    var run := s.ledger.runs[d];
    && run in s.sink && run in s.evaluators && NoRepeats(s.sink[run])
    && (!s.evaluators[run].stopped ==> Pending(s, run, id) || InFlight(s, run, id) || InEngine(s, run, id))
    && (d !in s.stale ==>
          && !(Pending(s, run, id) && InFlight(s, run, id))
          && !(Pending(s, run, id) && InEngine(s, run, id))
          && !(InFlight(s, run, id) && InEngine(s, run, id)))
  }

  /** Exactly once, over every interleaving: from the publication of a run on, each event
      listed under its decision is in exactly one of three places - the evaluator's
      pending IDs, its own accept's flight, the run. */
  lemma ExactlyOnce(states: seq<System>, steps: seq<Step>, hash: EventHash, i: nat, d: string, id: string)
    requires Behavior(states, steps, hash) && i < |states|
    requires d in states[i].ledger.runs && id in Listed(states[i].ledger, d)
    ensures HeldOnce(states[i], d, id)
  {
    ReachableKeepsInv(states, steps, hash, i);
    StateHoldsOnce(states[i], d, id);
  }

  /** The evaluator is through and nothing is in flight to the published run. */
  ghost predicate Quiet(s: System, d: string) {
    && d in s.ledger.runs && d !in s.stale && s.ledger.runs[d] in s.evaluators
    && s.evaluators[s.ledger.runs[d]].pending == [] && !s.evaluators[s.ledger.runs[d]].stopped
    && forall id :: !InFlight(s, s.ledger.runs[d], id)
  }

  lemma QuietStateAgrees(s: System, d: string)
    requires Inv(s) && Quiet(s, d)
    ensures s.ledger.runs[d] in s.sink
    ensures var ids := s.sink[s.ledger.runs[d]];
            && NoRepeats(ids) && NoRepeats(Listed(s.ledger, d)) && |ids| == |Listed(s.ledger, d)|
            && forall id :: id in ids <==> id in Listed(s.ledger, d)
  {
    var run := s.ledger.runs[d];
    assert Places(s, d) && NoRepeats(Listed(s.ledger, d));
    forall id ensures id in s.sink[run] <==> id in Listed(s.ledger, d) {
      assert Alone(s, d, run, id);
      assert id in Listed(s.ledger, d) ==> Placed(s, run, id);
    }
    NoRepeatsCount(s.sink[run]);
    NoRepeatsCount(Listed(s.ledger, d));
    assert (set id | id in s.sink[run]) == (set id | id in Listed(s.ledger, d));
  }

  lemma {:induction false} NoRepeatsCount(ids: seq<string>)
    requires NoRepeats(ids)
    ensures |set id | id in ids| == |ids|
  {
    if ids != [] {
      NoRepeatsCount(ids[1..]);
      assert (set id | id in ids) == {ids[0]} + set id | id in ids[1..];
    }
  }

  /** Then the run holds exactly the events the ledger lists, each once. */
  lemma QuietRunEqualsLedger(states: seq<System>, steps: seq<Step>, hash: EventHash, i: nat, d: string)
    requires Behavior(states, steps, hash) && i < |states| && Quiet(states[i], d)
    ensures states[i].ledger.runs[d] in states[i].sink
    ensures var ids, listed := states[i].sink[states[i].ledger.runs[d]], Listed(states[i].ledger, d);
            NoRepeats(ids) && |ids| == |listed| && forall id :: id in ids <==> id in listed
  {
    ReachableKeepsInv(states, steps, hash, i);
    QuietStateAgrees(states[i], d);
  }

  // ---- When no forward is ever refused

  /** Without refusals (the in-memory engine refuses no valid event) nothing is rolled
      back and nothing is stale, so both results hold without conditions. */
  lemma {:induction false} NoRefusalNoRollback(states: seq<System>, steps: seq<Step>, hash: EventHash, i: nat)
    requires Behavior(states, steps, hash) && i < |states|
    requires forall k | 0 <= k < |steps| :: !steps[k].Refuse?
    ensures states[i].rollbacks == 0 && states[i].stale == {}
    ensures forall id | id in states[i].flights :: states[i].flights[id].Sending?
  {
    if i > 0 {
      NoRefusalNoRollback(states, steps, hash, i - 1);
      assert Next(states[i - 1], steps[i - 1], states[i], hash);
    }
  }

  // ---- When a decision is evaluated again

  /** No forward of the decision's events is under way or waiting for its rollback. */
  ghost predicate Drained(s: System, d: string) {
    forall id | id in s.flights :: s.flights[id].event.context.decision != d
  }

  predicate Publishes(step: Step, d: string) {
    step.Publish? && step.decision == d
  }

  ghost predicate TwoPlaces(s: System, run: string, id: string) {
    || (Pending(s, run, id) && InFlight(s, run, id))
    || (Pending(s, run, id) && InEngine(s, run, id))
    || (InFlight(s, run, id) && InEngine(s, run, id))
  }

  /** The event is in exactly one place; in at most one when the evaluation stopped. */
  ghost predicate OnePlace(s: System, d: string, id: string)
    requires d in s.ledger.runs
  {
    var run := s.ledger.runs[d];
    && run in s.sink && run in s.evaluators && NoRepeats(s.sink[run]) && !TwoPlaces(s, run, id)
    && (!s.evaluators[run].stopped ==> Pending(s, run, id) || InFlight(s, run, id) || InEngine(s, run, id))
  }

  /** Every forward of the decision goes to its published run. */
  ghost predicate Tidy(s: System, d: string) {
    && d !in s.stale
    && forall id | id in s.flights && s.flights[id].event.context.decision == d :: s.flights[id].run == PublishedRun(s.ledger, d)
  }

  lemma AcceptedGoesToThePublishedRun(l: Ledger, e: Event, hash: EventHash)
    requires Verdict(l, e, hash).Accepted?
    ensures Verdict(l, e, hash).run == PublishedRun(l, e.context.decision)
  {
  }

  lemma AcceptKeepsTidy(s: System, e: Event, t: System, hash: EventHash, d: string)
    requires Tidy(s, d) && AcceptStep(s, e, t, hash)
    ensures Tidy(t, d)
  {
    if Verdict(s.ledger, e, hash).Accepted? {
      AcceptedGoesToThePublishedRun(s.ledger, e, hash);
    }
  }

  /** Only publishing the decision while one of its forwards is out disturbs this. */
  lemma StepKeepsTidy(s: System, step: Step, t: System, hash: EventHash, d: string)
    requires Tidy(s, d) && Next(s, step, t, hash) && (Publishes(step, d) ==> Drained(s, d))
    ensures Tidy(t, d)
  {
    hide AcceptStep;
    match step
    case Accept(e) => AcceptKeepsTidy(s, e, t, hash, d);
    case _ =>
  }

  /** states starts in s and each state follows from the one before by steps[i]. */
  ghost predicate Continues(s: System, states: seq<System>, steps: seq<Step>, hash: EventHash) {
    && |states| == |steps| + 1 && states[0] == s
    && forall i | 0 <= i < |steps| :: Next(states[i], steps[i], states[i + 1], hash)
  }

  lemma {:induction false} TidyStays(s: System, states: seq<System>, steps: seq<Step>, hash: EventHash, d: string, i: nat)
    requires Inv(s) && Tidy(s, d) && Continues(s, states, steps, hash) && i < |states|
    requires forall k | 0 <= k < i && Publishes(steps[k], d) :: Drained(states[k], d)
    ensures Inv(states[i]) && Tidy(states[i], d)
  {
    if i > 0 {
      TidyStays(s, states, steps, hash, d, i - 1);
      StepKeepsInv(states[i - 1], steps[i - 1], states[i], hash);
      StepKeepsTidy(states[i - 1], steps[i - 1], states[i], hash, d);
    }
  }

  lemma TidyIsSingle(s: System, d: string, id: string)
    requires Inv(s) && Tidy(s, d) && d in s.ledger.runs
    ensures !TwoPlaces(s, s.ledger.runs[d], id)
  {
    assert Places(s, d);
    assert Alone(s, d, s.ledger.runs[d], id);
  }

  /** Whatever forwards fail: while the decision is only ever published with none of its
      forwards in flight, each listed event is in exactly one place. */
  lemma DrainedEvaluationsAreExact(states: seq<System>, steps: seq<Step>, hash: EventHash, i: nat, d: string, id: string)
    requires Behavior(states, steps, hash) && i < |states|
    requires forall k | 0 <= k < i && Publishes(steps[k], d) :: Drained(states[k], d)
    requires d in states[i].ledger.runs && id in Listed(states[i].ledger, d)
    ensures OnePlace(states[i], d, id)
  {
    InitKeepsInv(states[0]);
    TidyStays(states[0], states, steps, hash, d, i);
    StateHoldsOnce(states[i], d, id);
    TidyIsSingle(states[i], d, id);
  }

  lemma {:induction false} UnpublishedHasNoRun(states: seq<System>, steps: seq<Step>, hash: EventHash, k: nat, d: string)
    requires Behavior(states, steps, hash) && k < |states|
    requires forall j | 0 <= j < k :: !Publishes(steps[j], d)
    ensures d !in states[k].ledger.runs
  {
    if k > 0 {
      UnpublishedHasNoRun(states, steps, hash, k - 1, d);
      OnlyPublishingAddsRuns(states[k - 1], steps[k - 1], states[k], hash, d);
    }
  }

  lemma OnlyPublishingAddsRuns(s: System, step: Step, t: System, hash: EventHash, d: string)
    requires Next(s, step, t, hash) && !Publishes(step, d) && d !in s.ledger.runs
    ensures d !in t.ledger.runs
  {
  }

  lemma NoRunNoFlight(s: System, d: string)
    requires RunsAgree(s) && FlightsAgree(s) && d !in s.ledger.runs
    ensures Drained(s, d)
  {
  }

  /** One evaluation of the decision, any number of failing forwards: exactly one place. */
  lemma OneEvaluationIsExact(states: seq<System>, steps: seq<Step>, hash: EventHash, i: nat, d: string, id: string)
    requires Behavior(states, steps, hash) && i < |states|
    requires forall j, k | 0 <= j < k < i :: !(Publishes(steps[j], d) && Publishes(steps[k], d))
    requires d in states[i].ledger.runs && id in Listed(states[i].ledger, d)
    ensures OnePlace(states[i], d, id)
  {
    forall k | 0 <= k < i && Publishes(steps[k], d) ensures Drained(states[k], d) {
      UnpublishedHasNoRun(states, steps, hash, k, d);
      ReachableKeepsInv(states, steps, hash, k);
      NoRunNoFlight(states[k], d);
    }
    DrainedEvaluationsAreExact(states, steps, hash, i, d, id);
  }

  /** Then the drained run holds exactly the listed events, each once. */
  lemma DrainedRunEqualsLedger(states: seq<System>, steps: seq<Step>, hash: EventHash, i: nat, d: string)
    requires Behavior(states, steps, hash) && i < |states| && d in states[i].ledger.runs
    requires forall k | 0 <= k < i && Publishes(steps[k], d) :: Drained(states[k], d)
    requires var run := states[i].ledger.runs[d];
             && run in states[i].evaluators && states[i].evaluators[run].pending == [] && !states[i].evaluators[run].stopped
             && forall id :: !InFlight(states[i], run, id)
    ensures states[i].ledger.runs[d] in states[i].sink
    ensures var ids, listed := states[i].sink[states[i].ledger.runs[d]], Listed(states[i].ledger, d);
            NoRepeats(ids) && |ids| == |listed| && forall id :: id in ids <==> id in listed
  {
    InitKeepsInv(states[0]);
    TidyStays(states[0], states, steps, hash, d, i);
    QuietStateAgrees(states[i], d);
  }

  // ---- The condition is exact

  /** Some run on, without publishing the decision again, puts an ID in two places. */
  ghost predicate DoubledAfter(t: System, states: seq<System>, steps: seq<Step>, d: string, hash: EventHash) {
    && Continues(t, states, steps, hash) && (forall k | 0 <= k < |steps| :: !Publishes(steps[k], d))
    && d in states[|steps|].ledger.runs
    && exists id :: TwoPlaces(states[|steps|], states[|steps|].ledger.runs[d], id)
  }

  ghost predicate CanDouble(t: System, d: string, hash: EventHash) {
    exists states, steps :: DoubledAfter(t, states, steps, d, hash)
  }

  ghost predicate AllValid(s: System) {
    forall id | id in s.ledger.events :: Valid(s.ledger.events[id])
  }

  lemma {:induction false} ReachableEventsValid(states: seq<System>, steps: seq<Step>, hash: EventHash, i: nat)
    requires Behavior(states, steps, hash) && i < |states|
    ensures AllValid(states[i])
  {
    if i > 0 {
      ReachableEventsValid(states, steps, hash, i - 1);
      StepKeepsValid(states[i - 1], steps[i - 1], states[i], hash);
    }
  }

  lemma StepKeepsValid(s: System, step: Step, t: System, hash: EventHash)
    requires AllValid(s) && Next(s, step, t, hash)
    ensures AllValid(t)
  {
    if step.Accept? {
      AcceptChangesEvents(s.ledger, step.event, hash);
    }
  }

  lemma AcceptChangesEvents(l: Ledger, e: Event, hash: EventHash)
    ensures EventLedger.Accept(l, e, hash).events in {l.events, l.events[e.id := e]}
  {
  }

  lemma {:induction false} LengthBound(keys: set<string>) returns (n: nat)
    ensures forall k | k in keys :: |k| <= n
    decreases |keys|
  {
    if keys == {} {
      n := 0;
    } else {
      var k :| k in keys;
      n := LengthBound(keys - {k});
      n := if |k| > n then |k| else n;
    }
  }

  lemma UnusedKey(keys: set<string>) returns (k: string)
    ensures k != "" && k !in keys
  {
    var n := LengthBound(keys);
    k := seq(n + 1, _ => 'k');
  }

  /** Another event under the same ID, that nothing in the ledger can refuse. */
  function Redelivered(e: Event, key: string): Event {
    e.(context := e.context.(parent := ""), sequence := 0, idempotencyKey := key)
  }

  lemma RedeliveryIsAccepted(l: Ledger, e: Event, key: string, hash: EventHash)
    requires e.id !in l.events && key != "" && key !in l.idempotency
    ensures Verdict(l, Redelivered(e, key), hash) == EventLedger.Accepted(PublishedRun(l, e.context.decision))
  {
  }

  lemma RedeliveryIsValid(e: Event, key: string)
    requires Valid(e)
    ensures Valid(Redelivered(e, key))
  {
  }

  lemma RollbackOf(s: System, id: string, hash: EventHash) returns (t: System)
    requires id in s.flights && s.flights[id].Refused?
    ensures Next(s, Rollback(id), t, hash)
    ensures t.ledger == RollBack(s.ledger, s.flights[id].event) && t.evaluators == s.evaluators && t.sink == s.sink
  {
    var e, run := s.flights[id].event, s.flights[id].run;
    t := s.(ledger := RollBack(s.ledger, e), flights := s.flights - {id},
            stale := if PublishedRun(s.ledger, e.context.decision) == run then s.stale else s.stale + {e.context.decision},
            rollbacks := s.rollbacks + 1);
  }

  /** After its rollback, an ID that is pending in the current evaluation can be accepted
      again, and is then both pending and in flight. */
  lemma RolledBackThenRedelivered(s: System, e: Event, d: string, run: string, hash: EventHash) returns (u: System, v: System, redelivery: Event)
    requires e.id in s.flights && s.flights[e.id].Refused? && s.flights[e.id].event == e && Valid(e) && e.context.decision == d
    requires run != "" && d in s.ledger.runs && s.ledger.runs[d] == run && Pending(s, run, e.id)
    ensures Next(s, Rollback(e.id), u, hash) && Next(u, Accept(redelivery), v, hash)
    ensures d in v.ledger.runs && v.ledger.runs[d] == run && TwoPlaces(v, run, e.id)
  {
    u := RollbackOf(s, e.id, hash);
    var key := UnusedKey(u.ledger.idempotency.Keys);
    redelivery := Redelivered(e, key);
    RedeliveryIsAccepted(u.ledger, e, key, hash);
    RedeliveryIsValid(e, key);
    v := AcceptAndForward(u, redelivery, run, hash);
  }

  lemma RefusedDoubles(t: System, e: Event, d: string, run: string, hash: EventHash) returns (states: seq<System>, steps: seq<Step>)
    requires e.id in t.flights && t.flights[e.id].Refused? && t.flights[e.id].event == e && Valid(e) && e.context.decision == d
    requires run != "" && d in t.ledger.runs && t.ledger.runs[d] == run && Pending(t, run, e.id)
    ensures DoubledAfter(t, states, steps, d, hash)
  {
    var u, v, redelivery := RolledBackThenRedelivered(t, e, d, run, hash);
    RolledBackDoubles(t, u, v, e.id, redelivery, d, run, hash);
    states, steps := [t, u, v], [Rollback(e.id), Accept(redelivery)];
  }

  lemma RefusalOf(t: System, id: string, hash: EventHash) returns (r: System)
    requires id in t.flights && t.flights[id].Sending?
    ensures Next(t, Refuse(id), r, hash)
    ensures id in r.flights && r.flights[id].Refused? && r.flights[id].event == t.flights[id].event
    ensures r.ledger == t.ledger && r.evaluators == t.evaluators
  {
    r := t.(flights := t.flights[id := Refused(t.flights[id].run, t.flights[id].event)]);
  }

  lemma FlightCanDouble(t: System, e: Event, d: string, run: string, hash: EventHash)
    requires e.id in t.flights && t.flights[e.id].event == e && Valid(e) && e.context.decision == d
    requires run != "" && d in t.ledger.runs && t.ledger.runs[d] == run && Pending(t, run, e.id)
    ensures CanDouble(t, d, hash)
  {
    hide Valid, Next, DoubledAfter;
    if t.flights[e.id].Sending? {
      var r := RefusalOf(t, e.id, hash);
      var states, steps := RefusedDoubles(r, e, d, run, hash);
      OneStepEarlier(t, r, Refuse(e.id), states, steps, d, hash);
    } else {
      var states, steps := RefusedDoubles(t, e, d, run, hash);
    }
  }

  lemma RolledBackDoubles(t: System, u: System, v: System, id: string, redelivery: Event, d: string, run: string, hash: EventHash)
    requires Next(t, Rollback(id), u, hash) && Next(u, Accept(redelivery), v, hash)
    requires d in v.ledger.runs && v.ledger.runs[d] == run && TwoPlaces(v, run, id)
    ensures DoubledAfter(t, [t, u, v], [Rollback(id), Accept(redelivery)], d, hash)
  {
    hide Next, TwoPlaces;
    var states, steps := [t, u, v], [Rollback(id), Accept(redelivery)];
    assert Next(states[0], steps[0], states[1], hash) && Next(states[1], steps[1], states[2], hash);
  }

  lemma OneStepEarlier(s: System, t: System, step: Step, states: seq<System>, steps: seq<Step>, d: string, hash: EventHash)
    requires Next(s, step, t, hash) && !Publishes(step, d) && DoubledAfter(t, states, steps, d, hash)
    ensures DoubledAfter(s, [s] + states, [step] + steps, d, hash)
  {
    hide Next, TwoPlaces;
    var longer, more := [s] + states, [step] + steps;
    forall i | 0 <= i < |more| ensures Next(longer[i], more[i], longer[i + 1], hash) {
      if i > 0 {
        assert longer[i] == states[i - 1] && longer[i + 1] == states[i] && more[i] == steps[i - 1];
      }
    }
    assert longer[|more|] == states[|steps|];
  }

  lemma DrainedCannotDouble(s: System, t: System, d: string, run: string, hash: EventHash)
    requires Inv(s) && PublishStep(s, d, run, t) && Drained(s, d)
    ensures !CanDouble(t, d, hash)
  {
    PublishKeepsInv(s, d, run, t);
    if states: seq<System>, steps: seq<Step> :| DoubledAfter(t, states, steps, d, hash) {
      TidyStays(t, states, steps, hash, d, |steps|);
      var id :| TwoPlaces(states[|steps|], states[|steps|].ledger.runs[d], id);
      TidyIsSingle(states[|steps|], d, id);
    }
  }

  /** A publication copies the IDs of all flights of the decision. */
  lemma FlightsAreCopied(s: System, t: System, d: string, run: string, id: string)
    requires Inv(s) && PublishStep(s, d, run, t) && id in s.flights && s.flights[id].event.context.decision == d
    ensures Pending(t, run, id) && d in t.ledger.runs && t.ledger.runs[d] == run && run != ""
    ensures id in t.flights && t.flights[id] == s.flights[id] && s.flights[id].event.id == id
  {
    assert id in s.ledger.events && s.ledger.events[id] == s.flights[id].event;
    assert id in Listed(s.ledger, d);
  }

  /** From a publication on, until the next one of the decision, some ID can end up in two
      places if and only if one of the decision's forwards was in flight at the publication. */
  lemma DoublingExactly(states: seq<System>, steps: seq<Step>, hash: EventHash, i: nat, d: string)
    requires Behavior(states, steps, hash) && i < |steps| && Publishes(steps[i], d)
    ensures CanDouble(states[i + 1], d, hash) <==> !Drained(states[i], d)
  {
    var s, t, run := states[i], states[i + 1], steps[i].run;
    assert PublishStep(s, d, run, t);
    ReachableKeepsInv(states, steps, hash, i);
    if Drained(s, d) {
      DrainedCannotDouble(s, t, d, run, hash);
    } else {
      var id :| id in s.flights && s.flights[id].event.context.decision == d;
      FlightsAreCopied(s, t, d, run, id);
      ReachableEventsValid(states, steps, hash, i);
      assert Valid(s.flights[id].event);
      FlightCanDouble(t, s.flights[id].event, d, run, hash);
    }
  }

  // ---- Parent links

  /** The chain of ancestors of an event, oldest first; it ends because every parent was
      accepted strictly earlier. */
  ghost function Ancestors(s: System, id: string): seq<string>
    requires ParentsEarlier(s) && s.rollbacks == 0 && id in s.ledger.events
    decreases s.born[id]
  {
    var parent := s.ledger.events[id].context.parent;
    if parent == "" then [] else Ancestors(s, parent) + [parent]
  }

  /** Parent links form a forest: no event is its own ancestor and no ancestor repeats. */
  lemma {:induction false} AncestorsAreOlder(s: System, id: string)
    requires ParentsEarlier(s) && s.rollbacks == 0 && id in s.ledger.events
    ensures forall a | a in Ancestors(s, id) :: a in s.ledger.events && s.born[a] < s.born[id]
    ensures NoRepeats(Ancestors(s, id)) && id !in Ancestors(s, id)
    decreases s.born[id]
  {
    var parent := s.ledger.events[id].context.parent;
    if parent != "" {
      AncestorsAreOlder(s, parent);
    }
  }

  /** Numbered events on one chain, all in one written partition, have increasing
      sequence numbers from the oldest ancestor down. */
  lemma {:induction false} SequencesIncreaseDownTheChain(s: System, id: string, ancestor: string)
    requires ParentsEarlier(s) && s.rollbacks == 0 && id in s.ledger.events && ancestor in Ancestors(s, id)
    requires forall a | a in Ancestors(s, id) + [id] && a in s.ledger.events ::
               s.ledger.events[a].sequence > 0 && s.ledger.events[a].partition == s.ledger.events[id].partition
    ensures ancestor in s.ledger.events && s.ledger.events[ancestor].sequence < s.ledger.events[id].sequence
    decreases s.born[id]
  {
    var parent := s.ledger.events[id].context.parent;
    var chain := Ancestors(s, id) + [id];
    AncestorsAreOlder(s, id);
    assert parent in Ancestors(s, id) && chain[|chain| - 1] == id;
    assert forall a | a in Ancestors(s, id) :: a in chain;
    if ancestor != parent {
      SequencesIncreaseDownTheChain(s, parent, ancestor);
    }
  }

  /** All of this holds in every state reached without a refused forward. */
  lemma ParentsFormAForest(states: seq<System>, steps: seq<Step>, hash: EventHash, i: nat, id: string)
    requires Behavior(states, steps, hash) && i < |states|
    requires forall k | 0 <= k < |steps| :: !steps[k].Refuse?
    requires id in states[i].ledger.events
    ensures ParentsEarlier(states[i]) && states[i].rollbacks == 0
    ensures NoRepeats(Ancestors(states[i], id)) && id !in Ancestors(states[i], id)
    ensures forall a | a in Ancestors(states[i], id) ::
              a in states[i].ledger.events && states[i].born[a] < states[i].born[id]
  {
    ReachableKeepsInv(states, steps, hash, i);
    NoRefusalNoRollback(states, steps, hash, i);
    AncestorsAreOlder(states[i], id);
  }

  // ---- What re-evaluation can do

  const SAMPLE := Event(VERSION, "x", "claim.declared", Source("a", "", ""), Subject("s", "s"), 1,
                        Header.Context("d", "", "", ""), 0, "", "", Some(Json.RNull), map[], map[])

  lemma SampleIsValid()
    ensures Valid(SAMPLE) && SAMPLE.id == EffectiveKey(SAMPLE) == "x" && SAMPLE.context.decision == "d"
    ensures SAMPLE.context.parent == "" && SAMPLE.sequence == 0
  {
    hide TrimSpace;
    SampleNames();
  }

  lemma SampleNames()
    ensures TrimSpace("x") == "x" && TrimSpace("a") == "a"
  {
  }

  lemma CreateThenPublish(s: System, d: string, run: string, hash: EventHash) returns (t: System, u: System)
    requires d != "" && run != "" && run !in s.sink && run !in s.evaluators
    ensures Next(s, CreateRun(run), t, hash) && Next(t, Publish(d, run), u, hash)
    ensures u.ledger == EventLedger.Publish(s.ledger, d, run) && u.flights == s.flights
    ensures u.sink.Keys == s.sink.Keys + {run} && u.evaluators.Keys == s.evaluators.Keys + {run}
    ensures u.evaluators[run].pending == Listed(s.ledger, d)
  {
    t := s.(sink := s.sink[run := []]);
    u := t.(ledger := EventLedger.Publish(s.ledger, d, run),
            evaluators := s.evaluators[run := Evaluator(d, Listed(s.ledger, d), Nothing, false)],
            stale := s.stale - {d});
  }

  lemma AcceptAndForward(s: System, e: Event, run: string, hash: EventHash) returns (t: System)
    requires Valid(e) && run != "" && Verdict(s.ledger, e, hash) == EventLedger.Accepted(run)
    ensures Next(s, Accept(e), t, hash)
    ensures t.ledger == Record(s.ledger, e) && t.flights == s.flights[e.id := Sending(run, e)]
    ensures t.sink == s.sink && t.evaluators == s.evaluators
  {
    t := s.(ledger := Record(s.ledger, e), flights := s.flights[e.id := Sending(run, e)],
            born := s.born[e.id := s.clock], clock := s.clock + 1);
  }

  lemma RefuseAndRollBack(s: System, id: string, hash: EventHash) returns (t: System, u: System)
    requires id in s.flights && s.flights[id].Sending?
    ensures Next(s, Refuse(id), t, hash) && Next(t, Rollback(id), u, hash)
    ensures u.ledger == RollBack(s.ledger, s.flights[id].event) && u.evaluators == s.evaluators
  {
    var e, run := s.flights[id].event, s.flights[id].run;
    t := s.(flights := s.flights[id := Refused(run, e)]);
    u := t.(ledger := RollBack(s.ledger, e), flights := t.flights - {id},
            stale := if PublishedRun(s.ledger, e.context.decision) == run then s.stale else s.stale + {e.context.decision},
            rollbacks := s.rollbacks + 1);
  }

  /** From a state where an event is both pending in the current evaluation and in flight
      to a superseded run, a refusal, its rollback and a redelivery put it in two places. */
  lemma RefusedThenRedelivered(s: System, e: Event, run: string, hash: EventHash) returns (t: System, u: System, v: System)
    requires Consistent(s.ledger) && FlightsAgree(s) && Valid(e) && ParentStands(s.ledger, e) && e.context.decision != ""
    requires e.id in s.flights && s.flights[e.id].Sending? && s.flights[e.id].event == e
    requires run != "" && run == PublishedRun(s.ledger, e.context.decision) && Pending(s, run, e.id)
    ensures Next(s, Refuse(e.id), t, hash) && Next(t, Rollback(e.id), u, hash) && Next(u, Accept(e), v, hash)
    ensures PublishedRun(v.ledger, e.context.decision) == run && e.id in Listed(v.ledger, e.context.decision)
    ensures Pending(v, run, e.id) && InFlight(v, run, e.id)
  {
    t, u := RefuseAndRollBack(s, e.id, hash);
    RolledBackIsAcceptedAgain(s.ledger, e, hash);
    v := AcceptAndForward(u, e, run, hash);
    assert e.id in Listed(Record(u.ledger, e), e.context.decision);
  }

  /** Such a state is reachable: a decision is evaluated again while a forward to its
      first run is under way. */
  lemma StaleForwardCanDouble(hash: EventHash) returns (states: seq<System>, steps: seq<Step>)
    ensures Behavior(states, steps, hash)
    ensures var s := states[|steps|];
            PublishedRun(s.ledger, "d") == "r2" && "x" in Listed(s.ledger, "d") && Pending(s, "r2", "x") && InFlight(s, "r2", "x")
  {
    SampleIsValid();
    states, steps := DoubledBy(SAMPLE, hash);
  }

  lemma FirstSteps(e: Event, hash: EventHash) returns (states: seq<System>, steps: seq<Step>)
    requires Valid(e) && e.id != "" && e.context.decision == "d" && e.context.parent == "" && e.sequence == 0
    ensures |steps| == 5 && Behavior(states, steps, hash)
    ensures states[5].flights == map[e.id := Sending("r1", e)]
    ensures PublishedRun(states[5].ledger, "d") == "r2" && Pending(states[5], "r2", e.id)
  {
    hide Listed, Record, Verdict, Next, Valid;
    var s0 := System(EMPTY, map[], map[], map[], {}, map[], 0, 0);
    var s1, s2 := CreateThenPublish(s0, "d", "r1", hash);
    FirstVerdict(e, hash);
    var s3 := AcceptAndForward(s2, e, "r1", hash);
    var s4, s5 := CreateThenPublish(s3, "d", "r2", hash);
    states := [s0, s1, s2, s3, s4, s5];
    steps := [CreateRun("r1"), Publish("d", "r1"), Accept(e), CreateRun("r2"), Publish("d", "r2")];
  }

  lemma DoubledBy(e: Event, hash: EventHash) returns (states: seq<System>, steps: seq<Step>)
    requires Valid(e) && e.id != "" && e.context.decision == "d" && e.context.parent == "" && e.sequence == 0
    ensures Behavior(states, steps, hash)
    ensures var s := states[|steps|];
            PublishedRun(s.ledger, "d") == "r2" && e.id in Listed(s.ledger, "d") && Pending(s, "r2", e.id) && InFlight(s, "r2", e.id)
  {
    var front, frontSteps := FirstSteps(e, hash);
    ReachableKeepsInv(front, frontSteps, hash, 5);
    var t, u, v := RefusedThenRedelivered(front[5], e, "r2", hash);
    OneMoreStep(front, frontSteps, Refuse(e.id), t, hash);
    OneMoreStep(front + [t], frontSteps + [Refuse(e.id)], Rollback(e.id), u, hash);
    OneMoreStep(front + [t] + [u], frontSteps + [Refuse(e.id)] + [Rollback(e.id)], Accept(e), v, hash);
    states := front + [t] + [u] + [v];
    steps := frontSteps + [Refuse(e.id)] + [Rollback(e.id)] + [Accept(e)];
  }

  lemma OneMoreStep(states: seq<System>, steps: seq<Step>, step: Step, t: System, hash: EventHash)
    requires Behavior(states, steps, hash) && Next(states[|steps|], step, t, hash)
    ensures Behavior(states + [t], steps + [step], hash)
  {
    var longer, more := states + [t], steps + [step];
    forall i | 0 <= i < |more| ensures Next(longer[i], more[i], longer[i + 1], hash) {
      if i < |steps| {
        assert longer[i] == states[i] && longer[i + 1] == states[i + 1] && more[i] == steps[i];
      }
    }
  }

  lemma FirstVerdict(e: Event, hash: EventHash)
    requires e.context.decision == "d" && e.context.parent == "" && e.sequence == 0
    ensures var first := EventLedger.Publish(EMPTY, "d", "r1");
            Verdict(first, e, hash) == EventLedger.Accepted("r1")
            && Listed(Record(first, e), "d") == [e.id]
  {
  }
}
