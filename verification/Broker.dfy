/** The in-memory fan-out of dashboard events to bounded, dropping subscriber queues.

    Calls on the broker are serialised by its lock, so an interleaving is a sequence of
    operations.  What each subscriber ends up with is described from the operations alone
    and compared with the nested maps and queues. */
module Broker {
  import opened Common

  const QUEUE_CAPACITY: nat := 8

  /** Subscriber ids number the channels in the order of their creation; a receive takes
      the head of a channel, a cancel runs the function returned by its subscribe. */
  datatype Op = Subscribe(topic: string) | Cancel(id: nat) | Publish(topic: string, event: string) | Receive(id: nat)

  /** `topics` is what the cancel functions remember. */
  datatype State = State(subs: map<string, set<nat>>, queues: seq<seq<string>>, topics: seq<string>)

  const EMPTY: State := State(map[], [], [])

  function SubscribersOf(s: State, topic: string): set<nat> {
    if topic in s.subs then s.subs[topic] else {}
  }

  function Pushed(q: seq<string>, event: string): seq<string> {
    if |q| < QUEUE_CAPACITY then q + [event] else q
  }

  function Unsubscribed(subs: map<string, set<nat>>, topic: string, id: nat): map<string, set<nat>> {
    if topic !in subs then subs
    else if subs[topic] - {id} == {} then subs - {topic}
    else subs[topic := subs[topic] - {id}]
  }

  function Apply(s: State, op: Op): State {
    match op
    case Subscribe(t) =>
      State(s.subs[t := SubscribersOf(s, t) + {|s.queues|}], s.queues + [[]], s.topics + [t])
    case Cancel(id) =>
      if id < |s.topics| then s.(subs := Unsubscribed(s.subs, s.topics[id], id)) else s
    case Publish(t, e) =>
      s.(queues := seq(|s.queues|, i requires 0 <= i < |s.queues| =>
        if i in SubscribersOf(s, t) then Pushed(s.queues[i], e) else s.queues[i]))
    case Receive(id) =>
      if id < |s.queues| && s.queues[id] != [] then s.(queues := s.queues[id := s.queues[id][1..]]) else s
  }

  function Replay(ops: seq<Op>): State {
    if ops == [] then EMPTY else Apply(Replay(ops[..|ops| - 1]), ops[|ops| - 1])
  }

  // ---------- the same, seen by one subscriber ----------

  function Subscriptions(ops: seq<Op>): nat {
    if ops == [] then 0
    else Subscriptions(ops[..|ops| - 1]) + if ops[|ops| - 1].Subscribe? then 1 else 0
  }

  /** The topic the subscriber is listening to after `ops`, if any. */
  function ListensTo(ops: seq<Op>, id: nat): Option<string> {
    if ops == [] then None
    else
      var before, last := ops[..|ops| - 1], ops[|ops| - 1];
      match last
      case Subscribe(t) => if Subscriptions(before) == id then Some(t) else ListensTo(before, id)
      case Cancel(j) => if j == id then None else ListensTo(before, id)
      case _ => ListensTo(before, id)
  }

  /** The subscriber's queue after `ops`. */
  function Queue(ops: seq<Op>, id: nat): seq<string> {
    var s := Replay(ops);
    if id < |s.queues| then s.queues[id] else []
  }

  /** An event published on the subscriber's topic while it listened, and whether its
      queue had room at that moment. */
  datatype Offer = Offer(event: string, room: bool)

  function Offers(ops: seq<Op>, id: nat): seq<Offer> {
    if ops == [] then []
    else
      var before, last := ops[..|ops| - 1], ops[|ops| - 1];
      Offers(before, id) +
      if last.Publish? && ListensTo(before, id) == Some(last.topic) then
        [Offer(last.event, |Queue(before, id)| < 8)]
      else []
  }

  /** The events the subscriber has taken out of its channel. */
  function Received(ops: seq<Op>, id: nat): seq<string> {
    if ops == [] then []
    else
      var before, last := ops[..|ops| - 1], ops[|ops| - 1];
      Received(before, id) +
      if last == Receive(id) && Queue(before, id) != [] then [Queue(before, id)[0]] else []
  }

  function Accepted(offers: seq<Offer>): seq<string> {
    if offers == [] then []
    else Accepted(offers[..|offers| - 1]) + if offers[|offers| - 1].room then [offers[|offers| - 1].event] else []
  }

  // ---------- bookkeeping ----------

  ghost predicate Indexed(ops: seq<Op>) {
    var s := Replay(ops);
    |s.queues| == |s.topics| == Subscriptions(ops) &&
    (forall t :: t in s.subs ==> s.subs[t] != {}) &&
    (forall t, id: nat :: id in SubscribersOf(s, t) <==> ListensTo(ops, id) == Some(t)) &&
    (forall id: nat :: ListensTo(ops, id).Some? ==> id < |s.topics| && s.topics[id] == ListensTo(ops, id).value)
  }

  /** The nested map holds exactly the live subscriptions, and no empty topic. */
  lemma {:induction false} SubscriptionsAreExact(ops: seq<Op>)
    ensures Indexed(ops)
  {
    if ops != [] {
      var before, last := ops[..|ops| - 1], ops[|ops| - 1];
      SubscriptionsAreExact(before);
      if last.Subscribe? {
        SubscribeIndexed(ops);
      } else if last.Cancel? {
        CancelIndexed(ops);
      }
    }
  }

  lemma {:induction false} SubscribeIndexed(ops: seq<Op>)
    requires ops != [] && ops[|ops| - 1].Subscribe? && Indexed(ops[..|ops| - 1])
    ensures Indexed(ops)
  {
    var before, t := ops[..|ops| - 1], ops[|ops| - 1].topic;
    var s, s' := Replay(before), Replay(ops);
    var fresh_ := |s.queues|;
    forall u, id: nat ensures id in SubscribersOf(s', u) <==> ListensTo(ops, id) == Some(u) {
      assert id in SubscribersOf(s, u) <==> ListensTo(before, id) == Some(u);
      assert ListensTo(before, fresh_).None?;
    }
  }

  lemma {:induction false} CancelIndexed(ops: seq<Op>)
    requires ops != [] && ops[|ops| - 1].Cancel? && Indexed(ops[..|ops| - 1])
    ensures Indexed(ops)
  {
    var before, j := ops[..|ops| - 1], ops[|ops| - 1].id;
    var s, s' := Replay(before), Replay(ops);
    forall u, id: nat ensures id in SubscribersOf(s', u) <==> ListensTo(ops, id) == Some(u) {
      assert id in SubscribersOf(s, u) <==> ListensTo(before, id) == Some(u);
    }
  }

  // ---------- delivery ----------

  lemma {:induction false} AcceptedAppend(offers: seq<Offer>, o: Offer)
    ensures Accepted(offers + [o]) == Accepted(offers) + if o.room then [o.event] else []
  {
    assert (offers + [o])[..|offers|] == offers;
  }

  /** How one operation changes a subscriber's queue. */
  lemma {:induction false} QueueStep(ops: seq<Op>, id: nat)
    requires ops != []
    ensures var before, last := ops[..|ops| - 1], ops[|ops| - 1];
            Queue(ops, id) ==
            if last.Publish? && ListensTo(before, id) == Some(last.topic) then Pushed(Queue(before, id), last.event)
            else if last == Receive(id) && Queue(before, id) != [] then Queue(before, id)[1..]
            else Queue(before, id)
  {
    var before, last := ops[..|ops| - 1], ops[|ops| - 1];
    SubscriptionsAreExact(before);
    var s := Replay(before);
    if last.Publish? {
      assert id in SubscribersOf(s, last.topic) <==> ListensTo(before, id) == Some(last.topic);
    }
  }

  /** What an operation adds to the accepted offers. */
  lemma {:induction false} AcceptedStep(ops: seq<Op>, id: nat)
    requires ops != []
    ensures var before, last := ops[..|ops| - 1], ops[|ops| - 1];
            Accepted(Offers(ops, id)) == Accepted(Offers(before, id)) +
            if last.Publish? && ListensTo(before, id) == Some(last.topic) && |Queue(before, id)| < QUEUE_CAPACITY
            then [last.event] else []
  {
    var before, last := ops[..|ops| - 1], ops[|ops| - 1];
    if last.Publish? && ListensTo(before, id) == Some(last.topic) {
      AcceptedAppend(Offers(before, id), Offer(last.event, |Queue(before, id)| < QUEUE_CAPACITY));
    } else {
      assert Offers(ops, id) == Offers(before, id);
    }
  }

  /** What a subscriber has received plus what waits in its queue are exactly the events
      offered to it when its queue had room, in order; the queue never exceeds eight. */
  lemma {:induction false} DeliveryIsExact(ops: seq<Op>, id: nat)
    ensures Received(ops, id) + Queue(ops, id) == Accepted(Offers(ops, id))
    ensures |Queue(ops, id)| <= 8
  {
    if ops != [] {
      var before, last := ops[..|ops| - 1], ops[|ops| - 1];
      DeliveryIsExact(before, id);
      QueueStep(ops, id);
      AcceptedStep(ops, id);
      Moves(Received(before, id), Queue(before, id));
      if last.Publish? && ListensTo(before, id) == Some(last.topic) {
        Assoc(Received(before, id), Queue(before, id), [last.event]);
      }
    }
  }

  /** Moving the head of the queue to the received events changes nothing in sum. */
  lemma {:induction false} Moves(got: seq<string>, q: seq<string>)
    ensures q != [] ==> (got + [q[0]]) + q[1..] == got + q
    ensures got + [] == got && (got + q) + [] == got + q
  {}

  // ---------- consequence: a subsequence of the topic ----------

  ghost predicate Subsequence(a: seq<string>, b: seq<string>) {
    a == [] ||
    (b != [] &&
     ((a[|a| - 1] == b[|b| - 1] && Subsequence(a[..|a| - 1], b[..|b| - 1])) || Subsequence(a, b[..|b| - 1])))
  }

  function PublishedOn(ops: seq<Op>, topic: string): seq<string> {
    if ops == [] then []
    else
      var last := ops[|ops| - 1];
      PublishedOn(ops[..|ops| - 1], topic) + if last.Publish? && last.topic == topic then [last.event] else []
  }

  /** The topic a subscriber was created for. */
  function CreatedFor(ops: seq<Op>, id: nat): Option<string> {
    if ops == [] then None
    else
      var before, last := ops[..|ops| - 1], ops[|ops| - 1];
      if last.Subscribe? && Subscriptions(before) == id then Some(last.topic) else CreatedFor(before, id)
  }

  lemma {:induction false} ListensToItsOwn(ops: seq<Op>, id: nat)
    ensures ListensTo(ops, id).Some? ==> ListensTo(ops, id) == CreatedFor(ops, id)
    ensures id >= Subscriptions(ops) ==> CreatedFor(ops, id).None?
  {
    if ops != [] {
      ListensToItsOwn(ops[..|ops| - 1], id);
    }
  }

  lemma {:induction false} SubsequenceStep(a: seq<string>, b: seq<string>, x: string, taken: bool)
    requires Subsequence(a, b)
    ensures Subsequence(a + if taken then [x] else [], b + [x])
  {
    assert (b + [x])[..|b|] == b && (a + [x])[..|a|] == a && a + [] == a;
  }

  /** A subscriber gets a subsequence of what was published on its own topic. */
  lemma {:induction false} OnlyOwnTopic(ops: seq<Op>, id: nat, topic: string)
    requires CreatedFor(ops, id) == Some(topic)
    ensures Subsequence(Accepted(Offers(ops, id)), PublishedOn(ops, topic))
  {
    var before, last := ops[..|ops| - 1], ops[|ops| - 1];
    ListensToItsOwn(before, id);
    if CreatedFor(before, id).None? {
      NothingBeforeCreation(before, id);
      assert Offers(ops, id) == [];
    } else {
      OnlyOwnTopic(before, id, topic);
      AcceptedStep(ops, id);
      var a, b := Accepted(Offers(before, id)), PublishedOn(before, topic);
      if last.Publish? && last.topic == topic {
        SubsequenceStep(a, b, last.event, ListensTo(before, id) == Some(topic) && |Queue(before, id)| < QUEUE_CAPACITY);
      } else {
        assert a + [] == a && b + [] == b;
      }
    }
  }

  /** Together: everything a subscriber ever holds comes from its own topic, in order. */
  lemma {:induction false} SubscriberSeesItsTopic(ops: seq<Op>, id: nat, topic: string)
    requires CreatedFor(ops, id) == Some(topic)
    ensures Subsequence(Received(ops, id) + Queue(ops, id), PublishedOn(ops, topic))
  {
    DeliveryIsExact(ops, id);
    OnlyOwnTopic(ops, id, topic);
  }

  lemma {:induction false} NothingBeforeCreation(ops: seq<Op>, id: nat)
    requires CreatedFor(ops, id).None?
    ensures Offers(ops, id) == []
  {
    if ops != [] {
      ListensToItsOwn(ops[..|ops| - 1], id);
      NothingBeforeCreation(ops[..|ops| - 1], id);
    }
  }

  /** Which publications of its topic a subscriber took, counted from the topic's first. */
  function Taken(ops: seq<Op>, id: nat): seq<nat> {
    if ops == [] then []
    else
      var before, last := ops[..|ops| - 1], ops[|ops| - 1];
      if last.Publish? && ListensTo(before, id) == Some(last.topic) && |Queue(before, id)| < QUEUE_CAPACITY
      then Taken(before, id) + [|PublishedOn(before, last.topic)|]
      else Taken(before, id)
  }

  ghost predicate Picks(held: seq<string>, history: seq<string>, at: seq<nat>) {
    |held| == |at| &&
    (forall j :: 0 <= j < |at| ==> at[j] < |history| && held[j] == history[at[j]]) &&
    (forall i, j :: 0 <= i < j < |at| ==> at[i] < at[j])
  }

  lemma {:induction false} PicksStep(held: seq<string>, history: seq<string>, at: seq<nat>, x: string)
    requires Picks(held, history, at)
    ensures Picks(held, history + [x], at) && Picks(held + [x], history + [x], at + [|history|])
  {}

  /** The events a subscriber holds or has received are the publications it took, and it
      took them in the order of publication. */
  lemma {:induction false} HoldsWhatItTook(ops: seq<Op>, id: nat, topic: string)
    requires CreatedFor(ops, id) == Some(topic)
    ensures Picks(Received(ops, id) + Queue(ops, id), PublishedOn(ops, topic), Taken(ops, id))
  {
    DeliveryIsExact(ops, id);
    TookWhatItAccepted(ops, id, topic);
  }

  lemma {:induction false} TookWhatItAccepted(ops: seq<Op>, id: nat, topic: string)
    requires CreatedFor(ops, id) == Some(topic)
    ensures Picks(Accepted(Offers(ops, id)), PublishedOn(ops, topic), Taken(ops, id))
  {
    var before, last := ops[..|ops| - 1], ops[|ops| - 1];
    ListensToItsOwn(before, id);
    if CreatedFor(before, id).None? {
      NothingBeforeCreation(before, id);
      NothingTaken(before, id);
    } else {
      TookWhatItAccepted(before, id, topic);
      AcceptedStep(ops, id);
      var held, history := Accepted(Offers(before, id)), PublishedOn(before, topic);
      assert held + [] == held && history + [] == history;
      if last.Publish? && last.topic == topic {
        PicksStep(held, history, Taken(before, id), last.event);
      }
    }
  }

  lemma {:induction false} NothingTaken(ops: seq<Op>, id: nat)
    requires CreatedFor(ops, id).None?
    ensures Taken(ops, id) == []
  {
    if ops != [] {
      ListensToItsOwn(ops[..|ops| - 1], id);
      NothingTaken(ops[..|ops| - 1], id);
    }
  }

  // ---------- the broker itself ----------

  class EventBroker {
    var state: State

    constructor ()
      ensures state == EMPTY
    {
      state := EMPTY;
    }

    method DoSubscribe(topic: string) returns (id: nat)
      modifies this
      ensures state == Apply(old(state), Subscribe(topic)) && id == |old(state).queues|
    {
      id := |state.queues|;
      var subs := state.subs;
      if topic !in subs {
        subs := subs[topic := {}];
      }
      subs := subs[topic := subs[topic] + {id}];
      state := State(subs, state.queues + [[]], state.topics + [topic]);
    }

    method Unsubscribe(id: nat)
      requires id < |state.topics|
      modifies this
      ensures state == Apply(old(state), Cancel(id))
    {
      var topic := state.topics[id];
      var subs := state.subs;
      if topic in subs {
        subs := subs[topic := subs[topic] - {id}];
        if |subs[topic]| == 0 {
          subs := subs - {topic};
        }
      }
      assert subs == Unsubscribed(state.subs, topic, id);
      state := state.(subs := subs);
    }

    /** Offer the event to every subscriber of the topic, in whatever order. */
    method DoPublish(topic: string, event: string)
      modifies this
      ensures state == Apply(old(state), Publish(topic, event))
    {
      var start := state;
      var todo := if topic in state.subs then state.subs[topic] else {};
      var queues := state.queues;
      while todo != {}
        invariant todo <= SubscribersOf(start, topic)
        invariant |queues| == |start.queues|
        invariant forall i :: 0 <= i < |queues| ==>
                    queues[i] == if i in SubscribersOf(start, topic) && i !in todo then Pushed(start.queues[i], event)
                                 else start.queues[i]
        decreases todo
      {
        var id :| id in todo;
        todo := todo - {id};
        if id < |queues| && |queues[id]| < QUEUE_CAPACITY {
          queues := queues[id := queues[id] + [event]];
        }
      }
      assert queues == Apply(start, Publish(topic, event)).queues;
      state := state.(queues := queues);
    }

    method DoReceive(id: nat) returns (event: Option<string>)
      requires id < |state.queues|
      modifies this
      ensures state == Apply(old(state), Receive(id))
      ensures event == if old(state).queues[id] == [] then None else Some(old(state).queues[id][0])
    {
      if |state.queues[id]| == 0 {
        return None;
      }
      event := Some(state.queues[id][0]);
      state := state.(queues := state.queues[id := state.queues[id][1..]]);
    }
  }
}
