/** The order of a decision's event history. */
module EventHistory {
  import opened Protocol
  import opened EventLedger
  import opened HandOff
  import Sorting

  /** Sequenced events by sequence then time, unsequenced ones last by time. */
  lemma EarlierIsStrictWeakOrder()
    ensures Sorting.StrictWeakOrder(Earlier)
  {
  }

  /** The history holds the accepted events of the decision, each once, in order, and
      events that compare equal stay in acceptance order. */
  lemma HistoryIsStableSort(l: Ledger, d: string, e: Event)
    requires forall id | id in Listed(l, d) :: id in l.events
    ensures multiset(History(l, d)) == multiset(EventsOf(l, Listed(l, d)))
    ensures |History(l, d)| == |Listed(l, d)|
    ensures Sorting.Ordered(History(l, d), Earlier)
    ensures Sorting.Alike(History(l, d), e, Earlier) == Sorting.Alike(EventsOf(l, Listed(l, d)), e, Earlier)
  {
    EarlierIsStrictWeakOrder();
    var events := EventsOf(l, Listed(l, d));
    Sorting.SortPermutes(events, Earlier);
    Sorting.SortOrders(events, Earlier);
    Sorting.SortIsStable(events, e, Earlier);
  }

  /** Numbered events come first, by number; equal numbers, and unnumbered events, by time. */
  lemma HistoryInOrder(l: Ledger, d: string, i: nat, j: nat)
    requires (forall id | id in Listed(l, d) :: id in l.events) && i < j < |History(l, d)|
    ensures var a, b := History(l, d)[i], History(l, d)[j];
            && (b.sequence != 0 ==> a.sequence != 0 && a.sequence <= b.sequence)
            && (a.sequence == b.sequence ==> a.time <= b.time)
  {
    EarlierIsStrictWeakOrder();
    Sorting.SortOrders(EventsOf(l, Listed(l, d)), Earlier);
    assert !Earlier(History(l, d)[j], History(l, d)[i]);
  }

  lemma EventsOfMembers(l: Ledger, ids: seq<string>, e: Event)
    requires EventsAgree(l) && forall id | id in ids :: id in l.events
    ensures e in EventsOf(l, ids) <==> e.id in ids && l.events[e.id] == e
  {
    var events := EventsOf(l, ids);
    if e in events {
      var i :| 0 <= i < |events| && events[i] == e;
      assert ids[i] in ids;
    }
    if e.id in ids && l.events[e.id] == e {
      var i :| 0 <= i < |ids| && ids[i] == e.id;
      assert events[i] == e;
    }
  }

  lemma HistoryHoldsTheDecision(l: Ledger, d: string, e: Event)
    requires EventsAgree(l) && EventLedger.ListsAgree(l)
    ensures e in History(l, d) <==> d != "" && e.id in l.events && l.events[e.id] == e && e.context.decision == d
  {
    EventsOfMembers(l, Listed(l, d), e);
    Sorting.SortKeepsMembers(EventsOf(l, Listed(l, d)), Earlier, e);
  }

  /** As long as nothing was rolled back, a numbered parent stands before its numbered
      child wherever both are in one history and written in one partition. */
  lemma ParentStandsBeforeChild(states: seq<System>, steps: seq<Step>, hash: EventHash, k: nat, d: string, i: nat, j: nat)
    requires Behavior(states, steps, hash) && k < |states| && states[k].rollbacks == 0
    requires forall id | id in Listed(states[k].ledger, d) :: id in states[k].ledger.events
    requires var history := History(states[k].ledger, d);
             && i < |history| && j < |history|
             && history[j].context.parent == history[i].id
             && history[i].sequence > 0 && history[j].sequence > 0
             && history[i].partition == history[j].partition
    ensures i < j
  {
    ReachableKeepsInv(states, steps, hash, k);
    var history := History(states[k].ledger, d);
    HistoryIsStableSort(states[k].ledger, d, history[i]);
    MembersAreAccepted(states[k], d, history[i]);
    MembersAreAccepted(states[k], d, history[j]);
    AcceptedParentPrecedes(states[k], history[i], history[j]);
    NumberedParentIsFirst(history, i, j);
  }

  lemma MembersAreAccepted(s: System, d: string, e: Event)
    requires Consistent(s.ledger) && e in History(s.ledger, d)
    ensures e.id in s.ledger.events && s.ledger.events[e.id] == e && e.id != ""
  {
    HistoryHoldsTheDecision(s.ledger, d, e);
  }

  lemma AcceptedParentPrecedes(s: System, parent: Event, child: Event)
    requires ParentsEarlier(s) && s.rollbacks == 0 && child.context.parent == parent.id && parent.id != ""
    requires parent.id in s.ledger.events && s.ledger.events[parent.id] == parent
    requires child.id in s.ledger.events && s.ledger.events[child.id] == child
    ensures ParentPrecedes(parent, child)
  {
  }

  lemma NumberedParentIsFirst(history: seq<Event>, i: nat, j: nat)
    requires i < |history| && j < |history| && Sorting.Ordered(history, Earlier)
    requires history[i].sequence > 0 && history[j].sequence > 0 && history[i].partition == history[j].partition
    requires ParentPrecedes(history[i], history[j])
    ensures i < j
  {
    assert Earlier(history[i], history[j]) && !Earlier(history[j], history[i]);
  }
}
