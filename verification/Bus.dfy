/** The lifecycle bus (apps/control-plane/internal/lifecycle/bus.go). Publishers share the
    read lock, so their sends interleave with each other and with receivers; subscribing
    and unsubscribing take the write lock and so exclude every publisher. */
module Bus {
  const CAPACITY: nat := 16

  datatype Event = Event(run: string, kind: string, value: string)

  // ---- The code: a bus of buffered channels

  class Channel {
    var queue: seq<Event>
    var open: bool

    constructor ()
      ensures queue == [] && open
    {
      queue, open := [], true;
    }

    /** `select` with a default: sends when there is room. A send on a closed channel panics. */
    method TrySend(e: Event)
      requires open
      modifies this`queue
      ensures queue == if |old(queue)| < 16 then old(queue) + [e] else old(queue)
    {
      if |queue| < CAPACITY {
        queue := queue + [e];
      }
    }

    method Close()
      requires open
      modifies this`open
      ensures !open
    {
      open := false;
    }
  }

  class LifecycleBus {
    var subscribers: map<string, set<Channel>>

    constructor ()
      ensures subscribers == map[]
    {
      subscribers := map[];
    }

    ghost function Of(run: string): set<Channel>
      reads this
    {
      if run in subscribers then subscribers[run] else {}
    }

    /** Registered channels are open, and each is registered for one run. */
    ghost predicate Valid()
      reads this, set run, c | run in subscribers && c in subscribers[run] :: c
    {
      && (forall run, c | run in subscribers && c in subscribers[run] :: c.open)
      && (forall r, s, c | r in subscribers && s in subscribers && c in subscribers[r] && c in subscribers[s] :: r == s)
    }

    /** Offers the event once to every subscriber of its run, in any order, and to no other. */
    method Publish(event: Event)
      requires Valid()
      modifies Of(event.run)
      ensures Valid()
      ensures forall c | c in Of(event.run) ::
                c.open && c.queue == if |old(c.queue)| < 16 then old(c.queue) + [event] else old(c.queue)
    {
      var todo := if event.run in subscribers then subscribers[event.run] else {};
      ghost var all := todo;
      while todo != {}
        invariant todo <= all
        invariant forall c | c in all ::
                    c.open && c.queue == if c in todo || |old(c.queue)| >= 16 then old(c.queue) else old(c.queue) + [event]
      {
        var c :| c in todo;
        c.TrySend(event);
        todo := todo - {c};
      }
    }

    method Subscribe(run: string) returns (c: Channel)
      requires Valid()
      modifies this
      ensures Valid() && fresh(c) && c.open && c.queue == []
      ensures Of(run) == old(Of(run)) + {c} && forall r | r != run :: Of(r) == old(Of(r))
    {
      c := new Channel();
      var before := if run in subscribers then subscribers[run] else {};
      subscribers := subscribers[run := before + {c}];
    }

    /** The function `Subscribe` returns; its caller runs it once. */
    method Unsubscribe(run: string, c: Channel)
      requires Valid() && c in Of(run)
      modifies this, c`open
      ensures Valid() && !c.open
      ensures Of(run) == old(Of(run)) - {c} && forall r | r != run :: Of(r) == old(Of(r))
    {
      subscribers := subscribers[run := subscribers[run] - {c}];
      c.Close();
    }
  }

  // ---- All interleavings: one step per send, receive or lock section

  /** `offered` numbers the publications whose send to this channel has happened, in that
      order; `delivered` and `queue` hold the ones that were not dropped. */
  datatype Subscription = Subscription(
    run: string, since: nat, until: int, offered: seq<nat>, delivered: seq<nat>, queue: seq<nat>)

  /** `published` lists every publication begun; `active` maps those that hold the read
      lock to the channels they have still to send to. An open subscription has until < 0. */
  datatype System = System(published: seq<Event>, active: map<nat, set<nat>>, channels: map<nat, Subscription>)

  const START := System([], map[], map[])

  predicate Subscribed(s: System, c: nat) {
    c in s.channels && s.channels[c].until < 0
  }

  function SubscribersOf(s: System, run: string): set<nat> {
    set c | c in s.channels && s.channels[c].until < 0 && s.channels[c].run == run
  }

  datatype Step =
    | Begin(event: Event)
    | Send(publication: nat, channel: nat)
    | End(publication: nat)
    | Subscribe(channel: nat, run: string)
    | Unsubscribe(channel: nat)
    | Receive(channel: nat)

  function Sent(sub: Subscription, p: nat): Subscription {
    sub.(offered := sub.offered + [p], queue := if |sub.queue| < CAPACITY then sub.queue + [p] else sub.queue)
  }

  ghost predicate Next(s: System, step: Step, t: System) {
    match step
    case Begin(e) =>
      t == s.(published := s.published + [e], active := s.active[|s.published| := SubscribersOf(s, e.run)])
    case Send(p, c) =>
      && p in s.active && c in s.active[p] && c in s.channels
      && t == s.(active := s.active[p := s.active[p] - {c}], channels := s.channels[c := Sent(s.channels[c], p)])
    case End(p) => p in s.active && s.active[p] == {} && t == s.(active := s.active - {p})
    case Subscribe(c, run) =>
      && s.active == map[] && c !in s.channels
      && t == s.(channels := s.channels[c := Subscription(run, |s.published|, -1, [], [], [])])
    case Unsubscribe(c) =>
      && s.active == map[] && Subscribed(s, c)
      && t == s.(channels := s.channels[c := s.channels[c].(until := |s.published|)])
    case Receive(c) =>
      && c in s.channels && s.channels[c].queue != []
      && var sub := s.channels[c];
         t == s.(channels := s.channels[c := sub.(delivered := sub.delivered + [sub.queue[0]], queue := sub.queue[1..])])
  }

  /** a is b with some elements left out, in the same order. */
  predicate Subsequence(a: seq<nat>, b: seq<nat>)
    decreases |b|
  {
    if a == [] then true
    else if b == [] then false
    else
      || (a[|a| - 1] == b[|b| - 1] && Subsequence(a[..|a| - 1], b[..|b| - 1]))
      || Subsequence(a, b[..|b| - 1])
  }

  lemma SubsequenceGrows(a: seq<nat>, b: seq<nat>, x: nat)
    requires Subsequence(a, b)
    ensures Subsequence(a, b + [x]) && Subsequence(a + [x], b + [x])
  {
    assert (b + [x])[..|b|] == b && (a + [x])[..|a|] == a;
  }

  /** Published for the channel's run while it was subscribed. */
  predicate Due(s: System, c: nat, p: nat) {
    && c in s.channels && p < |s.published| && s.channels[c].since <= p
    && (s.channels[c].until < 0 || p < s.channels[c].until)
    && s.published[p].run == s.channels[c].run
  }

  predicate StillToSend(s: System, c: nat, p: nat) {
    p in s.active && c in s.active[p]
  }

  ghost predicate SubscriptionOk(s: System, c: nat)
    requires c in s.channels
  {
    var sub := s.channels[c];
    && |sub.queue| <= CAPACITY && sub.since <= |s.published| && sub.until <= |s.published|
    && Subsequence(sub.delivered + sub.queue, sub.offered)
    && (forall i, j | 0 <= i < j < |sub.offered| :: sub.offered[i] != sub.offered[j])
    && (forall p :: p in sub.offered <==> Due(s, c, p) && !StillToSend(s, c, p))
  }

  ghost predicate Inv(s: System) {
    && (forall p | p in s.active :: p < |s.published|)
    && (forall p, c | StillToSend(s, c, p) :: Subscribed(s, c) && Due(s, c, p))
    && (forall c | c in s.channels :: SubscriptionOk(s, c))
  }

  /** A send changes only what is still to send, and the channel's own lists. */
  lemma SendChangesOnePair(s: System, p: nat, c: nat, t: System, d: nat, q: nat)
    requires Next(s, Send(p, c), t)
    ensures Due(t, d, q) <==> Due(s, d, q)
    ensures StillToSend(t, d, q) <==> StillToSend(s, d, q) && !(q == p && d == c)
    ensures Subscribed(t, d) <==> Subscribed(s, d)
  {
  }

  lemma SendKeepsOthers(s: System, p: nat, c: nat, t: System, d: nat)
    requires Next(s, Send(p, c), t) && d != c && d in s.channels && SubscriptionOk(s, d)
    ensures SubscriptionOk(t, d)
  {
    assert t.channels[d] == s.channels[d];
    forall q ensures q in t.channels[d].offered <==> Due(t, d, q) && !StillToSend(t, d, q) {
      SendChangesOnePair(s, p, c, t, d, q);
    }
  }

  lemma SendOffersOnce(s: System, p: nat, c: nat, t: System)
    requires Next(s, Send(p, c), t) && SubscriptionOk(s, c)
    ensures t.published == s.published && c in t.channels && t.channels[c] == Sent(s.channels[c], p)
    ensures p !in s.channels[c].offered && StillToSend(s, c, p)
  {
  }

  lemma SendKeepsOwn(s: System, p: nat, c: nat, t: System)
    requires Next(s, Send(p, c), t) && SubscriptionOk(s, c) && Due(s, c, p)
    ensures SubscriptionOk(t, c)
  {
    hide Subsequence, Due, StillToSend, Sent;
    SendOffersOnce(s, p, c, t);
    SentStaysInOrder(s.channels[c], p);
    forall q ensures q in t.channels[c].offered <==> Due(t, c, q) && !StillToSend(t, c, q) {
      SendOffers(s, p, c, t, q);
    }
  }

  lemma SentStaysInOrder(sub: Subscription, p: nat)
    requires |sub.queue| <= CAPACITY && Subsequence(sub.delivered + sub.queue, sub.offered) && p !in sub.offered
    requires forall i, j | 0 <= i < j < |sub.offered| :: sub.offered[i] != sub.offered[j]
    ensures var sent := Sent(sub, p);
            && sent.since == sub.since && sent.until == sub.until && |sent.queue| <= CAPACITY
            && Subsequence(sent.delivered + sent.queue, sent.offered)
            && forall i, j | 0 <= i < j < |sent.offered| :: sent.offered[i] != sent.offered[j]
  {
    hide Subsequence;
    SubsequenceGrows(sub.delivered + sub.queue, sub.offered, p);
    assert sub.delivered + (sub.queue + [p]) == sub.delivered + sub.queue + [p];
  }

  lemma SendOffers(s: System, p: nat, c: nat, t: System, q: nat)
    requires Next(s, Send(p, c), t) && SubscriptionOk(s, c) && Due(s, c, p)
    ensures q in t.channels[c].offered <==> Due(t, c, q) && !StillToSend(t, c, q)
  {
    hide Subsequence, Due, StillToSend;
    SendChangesOnePair(s, p, c, t, c, q);
    assert q in s.channels[c].offered + [p] <==> q in s.channels[c].offered || q == p;
  }

  lemma SendKeepsInv(s: System, p: nat, c: nat, t: System)
    requires Inv(s) && Next(s, Send(p, c), t)
    ensures Inv(t)
  {
    assert StillToSend(s, c, p);
    forall d | d in t.channels ensures SubscriptionOk(t, d) {
      if d == c {
        SendKeepsOwn(s, p, c, t);
      } else {
        SendKeepsOthers(s, p, c, t, d);
      }
    }
    forall q, d | StillToSend(t, d, q) ensures Subscribed(t, d) && Due(t, d, q) {
      SendChangesOnePair(s, p, c, t, d, q);
    }
  }

  lemma ReceiveKeepsInv(s: System, c: nat, t: System)
    requires Inv(s) && Next(s, Receive(c), t)
    ensures Inv(t)
  {
    var sub := s.channels[c];
    assert sub.delivered + [sub.queue[0]] + sub.queue[1..] == sub.delivered + sub.queue;
    forall d | d in t.channels ensures SubscriptionOk(t, d) {
      assert SubscriptionOk(s, d);
      forall q ensures (Due(t, d, q) <==> Due(s, d, q)) && (StillToSend(t, d, q) <==> StillToSend(s, d, q)) {
      }
    }
    forall q, d | StillToSend(t, d, q) ensures Subscribed(t, d) && Due(t, d, q) {
      assert StillToSend(s, d, q);
    }
  }

  lemma LockKeepsInv(s: System, step: Step, t: System)
    requires Inv(s) && Next(s, step, t) && (step.Begin? || step.End? || step.Subscribe? || step.Unsubscribe?)
    ensures Inv(t)
  {
    forall d | d in t.channels ensures SubscriptionOk(t, d) {
      if d in s.channels {
        assert SubscriptionOk(s, d);
      }
      forall q ensures q in t.channels[d].offered <==> Due(t, d, q) && !StillToSend(t, d, q) {
        if d in s.channels {
          assert q in s.channels[d].offered <==> Due(s, d, q) && !StillToSend(s, d, q);
        }
      }
    }
    forall q, d | StillToSend(t, d, q) ensures Subscribed(t, d) && Due(t, d, q) {
      assert StillToSend(s, d, q) || (step.Begin? && q == |s.published|);
    }
  }

  lemma StepKeepsInv(s: System, step: Step, t: System)
    requires Inv(s) && Next(s, step, t)
    ensures Inv(t)
  {
    match step
    case Send(p, c) => SendKeepsInv(s, p, c, t);
    case Receive(c) => ReceiveKeepsInv(s, c, t);
    case _ => LockKeepsInv(s, step, t);
  }

  ghost predicate Behavior(states: seq<System>, steps: seq<Step>) {
    && |states| == |steps| + 1 && states[0] == START
    && forall i | 0 <= i < |steps| :: Next(states[i], steps[i], states[i + 1])
  }

  lemma {:induction false} ReachableKeepsInv(states: seq<System>, steps: seq<Step>, i: nat)
    requires Behavior(states, steps) && i < |states|
    ensures Inv(states[i])
  {
    if i > 0 {
      ReachableKeepsInv(states, steps, i - 1);
      StepKeepsInv(states[i - 1], steps[i - 1], states[i]);
    }
  }

  /** What a subscriber sees, over every interleaving: what it received and has queued is an
      in-order part of what was offered, and it was offered each publication of its run
      while subscribed exactly once, save those whose send is still to come. */
  lemma SubscriberSees(states: seq<System>, steps: seq<Step>, i: nat, c: nat)
    requires Behavior(states, steps) && i < |states| && c in states[i].channels
    ensures var sub := states[i].channels[c];
            && (exists at: seq<nat> :: PartOf(at, sub.delivered + sub.queue, sub.offered)) && |sub.queue| <= 16
            && (forall j, k | 0 <= j < k < |sub.offered| :: sub.offered[j] != sub.offered[k])
            && forall p: nat :: p in sub.offered <==>
                 && p < |states[i].published| && states[i].published[p].run == sub.run
                 && sub.since <= p && (sub.until < 0 || p < sub.until)
                 && !(p in states[i].active && c in states[i].active[p])
  {
    ReachableKeepsInv(states, steps, i);
    assert SubscriptionOk(states[i], c);
    var sub := states[i].channels[c];
    var at := SubsequenceIsPart(sub.delivered + sub.queue, sub.offered);
    forall p: nat ensures p in sub.offered <==> Due(states[i], c, p) && !StillToSend(states[i], c, p) {
    }
  }

  /** Strictly ascending positions at which `b` holds the elements of `a`. */
  ghost predicate PartOf(at: seq<nat>, a: seq<nat>, b: seq<nat>) {
    && |at| == |a| && (forall i, j | 0 <= i < j < |at| :: at[i] < at[j])
    && forall i | 0 <= i < |at| :: at[i] < |b| && b[at[i]] == a[i]
  }

  lemma {:induction false} SubsequenceIsPart(a: seq<nat>, b: seq<nat>) returns (at: seq<nat>)
    requires Subsequence(a, b)
    ensures PartOf(at, a, b)
    decreases |b|
  {
    if a == [] {
      at := [];
    } else if a[|a| - 1] == b[|b| - 1] && Subsequence(a[..|a| - 1], b[..|b| - 1]) {
      var front := SubsequenceIsPart(a[..|a| - 1], b[..|b| - 1]);
      at := front + [|b| - 1];
    } else {
      at := SubsequenceIsPart(a, b[..|b| - 1]);
    }
  }

  /** Publishing never blocks and never hits a closed channel: from any reachable state,
      any send still to come can happen at once, to a channel whose subscription is open,
      and drops its event exactly when 16 are queued there. */
  lemma SendNeverBlocks(states: seq<System>, steps: seq<Step>, i: nat, p: nat, c: nat) returns (t: System)
    requires Behavior(states, steps) && i < |states| && StillToSend(states[i], c, p)
    ensures Next(states[i], Send(p, c), t) && Subscribed(states[i], c)
    ensures var before, after := states[i].channels[c], t.channels[c];
            && after.offered == before.offered + [p]
            && (after.delivered + after.queue == before.delivered + before.queue + [p] <==> |before.queue| != 16)
            && (after.delivered + after.queue == before.delivered + before.queue <==> |before.queue| == 16)
  {
    ReachableKeepsInv(states, steps, i);
    var s := states[i];
    assert SubscriptionOk(s, c);
    var sub := s.channels[c];
    t := s.(active := s.active[p := s.active[p] - {c}], channels := s.channels[c := Sent(sub, p)]);
    assert sub.delivered + (sub.queue + [p]) == sub.delivered + sub.queue + [p];
    assert |sub.delivered + sub.queue + [p]| == |sub.delivered + sub.queue| + 1;
  }

  /** A subscriber whose queue never fills up loses nothing. */
  lemma {:induction false} PromptSubscriberLosesNothing(states: seq<System>, steps: seq<Step>, i: nat, c: nat)
    requires Behavior(states, steps) && i < |states| && c in states[i].channels
    requires forall k | 0 <= k < i && c in states[k].channels :: |states[k].channels[c].queue| < 16
    ensures states[i].channels[c].delivered + states[i].channels[c].queue == states[i].channels[c].offered
  {
    assert i > 0;
    assert Next(states[i - 1], steps[i - 1], states[i]);
    if c in states[i - 1].channels {
      PromptSubscriberLosesNothing(states, steps, i - 1, c);
      var sub := states[i - 1].channels[c];
      if steps[i - 1].Send? && steps[i - 1].channel == c {
        var p := steps[i - 1].publication;
        assert sub.delivered + (sub.queue + [p]) == sub.delivered + sub.queue + [p];
      }
      if steps[i - 1] == Receive(c) {
        assert sub.delivered + [sub.queue[0]] + sub.queue[1..] == sub.delivered + sub.queue;
      }
    }
  }
}
