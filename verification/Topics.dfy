/** Topic subscriptions: subscribers per topic, and the protocols joined for them. */
module Topics {
  import opened Multiaddrs
  import opened FanOut

  datatype GossipEvent = PeerSubscribed(peer: PeerId) | Message(peer: PeerId, data: seq<int>)
    | PeerUnsubscribed(peer: PeerId)

  datatype Board = Board(
    gossip: bool,
    broadcast: bool,
    subs: map<string, seq<Subscriber<GossipEvent>>>,
    gossipJoined: set<string>,
    broadcastJoined: set<string>)

  /**
   Inputs; `joins` and `leaves` tell whether gossipsub takes the subscription and, should it
   come to that, its end.
   */
  datatype Input =
    | Join(topic: string, id: int, joins: bool)
    | Publish(topic: string, event: GossipEvent, leaves: bool)
    | Leave(id: int)

  /** Whether the caller gets its receiver. */
  predicate Accepted(b: Board, topic: string, joins: bool) {
    (b.gossip || b.broadcast) && (topic in b.subs || !b.gossip || joins)
  }

  function SubscribeTo(b: Board, topic: string, id: int, joins: bool): Board {
    if !b.gossip && !b.broadcast then b
    else if topic in b.subs then b.(subs := b.subs[topic := b.subs[topic] + [Subscriber(id, true, [])]])
    else if b.gossip && !joins then b.(subs := b.subs[topic := [Subscriber(id, false, [])]])
    else b.(subs := b.subs[topic := [Subscriber(id, true, [])]],
            gossipJoined := if b.gossip then b.gossipJoined + {topic} else b.gossipJoined,
            broadcastJoined := if b.broadcast then b.broadcastJoined + {topic} else b.broadcastJoined)
  }

  /** A topic without subscribers is forgotten, even when gossipsub fails to leave it. */
  function NotifySubscribers(b: Board, topic: string, e: GossipEvent, leaves: bool): Board {
    if topic !in b.subs then b
    else
      var kept := Delivered(b.subs[topic], e);
      if kept != [] then b.(subs := b.subs[topic := kept])
      else b.(subs := b.subs - {topic},
              gossipJoined := if b.gossip && leaves then b.gossipJoined - {topic} else b.gossipJoined,
              broadcastJoined := if b.broadcast then b.broadcastJoined - {topic} else b.broadcastJoined)
  }

  function DropReceiver(b: Board, id: int): Board {
    b.(subs := map t | t in b.subs :: Dropped(b.subs[t], id))
  }

  function Step(b: Board, i: Input): Board {
    match i
    case Join(topic, id, joins) => SubscribeTo(b, topic, id, joins)
    case Publish(topic, e, leaves) => NotifySubscribers(b, topic, e, leaves)
    case Leave(id) => DropReceiver(b, id)
  }

  function After(b: Board, ins: seq<Input>): Board {
    if ins == [] then b else Step(After(b, ins[..|ins| - 1]), ins[|ins| - 1])
  }

  function Empty(gossip: bool, broadcast: bool): Board {
    Board(gossip, broadcast, map[], {}, {})
  }

  // ---------- the object ----------

  class Subscriptions {
    const gossip: bool
    const broadcast: bool
    var subs: map<string, seq<Subscriber<GossipEvent>>>
    var gossipJoined: set<string>
    var broadcastJoined: set<string>

    ghost function State(): Board
      reads this
    {
      Board(gossip, broadcast, subs, gossipJoined, broadcastJoined)
    }

    constructor (gossip: bool, broadcast: bool)
      ensures State() == Empty(gossip, broadcast)
    {
      this.gossip, this.broadcast := gossip, broadcast;
      subs, gossipJoined, broadcastJoined := map[], {}, {};
    }

    method Subscribe(topic: string, id: int, joins: bool) returns (ok: bool)
      modifies this
      ensures State() == SubscribeTo(old(State()), topic, id, joins)
      ensures ok == Accepted(old(State()), topic, joins)
    {
      if !gossip && !broadcast {
        return false;
      }
      if topic in subs {
        subs := subs[topic := subs[topic] + [Subscriber(id, true, [])]];
      } else {
        subs := subs[topic := [Subscriber(id, true, [])]];
        if gossip {
          if !joins {
            // returning the error drops the receiver
            subs := subs[topic := [Subscriber(id, false, [])]];
            return false;
          }
          gossipJoined := gossipJoined + {topic};
        }
        if broadcast {
          broadcastJoined := broadcastJoined + {topic};
        }
      }
      return true;
    }

    /** A receiver goes away; its sender stays listed until the topic's next event. */
    method ReceiverDropped(id: int)
      modifies this`subs
      ensures State() == DropReceiver(old(State()), id)
    {
      subs := map t | t in subs :: Dropped(subs[t], id);
    }

    /** Leaves the protocols; a failure of gossipsub is only logged. */
    method Unsubscribe(topic: string, leaves: bool)
      modifies this`gossipJoined, this`broadcastJoined
      ensures gossipJoined == old(gossipJoined) - (if gossip && leaves then {topic} else {})
      ensures broadcastJoined == old(broadcastJoined) - (if broadcast then {topic} else {})
    {
      if gossip && leaves {
        gossipJoined := gossipJoined - {topic};
      }
      if broadcast {
        broadcastJoined := broadcastJoined - {topic};
      }
    }

    method Notify(topic: string, e: GossipEvent, leaves: bool)
      modifies this
      ensures State() == NotifySubscribers(old(State()), topic, e, leaves)
    {
      if topic in subs {
        var kept := Deliver(subs[topic], e);
        subs := subs[topic := kept];
        if kept == [] {
          Unsubscribe(topic, leaves);
          subs := subs - {topic};
          assert subs == old(subs) - {topic};
        }
      }
    }
  }

  // ---------- joined protocols follow the map ----------

  predicate NoEmptyTopic(b: Board) {
    forall t :: t in b.subs ==> b.subs[t] != []
  }

  /** Nothing is joined that is not in the map, and nothing at all in a protocol that is off. */
  predicate JoinedWithin(b: Board) {
    && b.gossipJoined <= (if b.gossip then b.subs.Keys else {})
    && b.broadcastJoined <= (if b.broadcast then b.subs.Keys else {})
  }

  predicate JoinedExactly(b: Board) {
    && b.gossipJoined == (if b.gossip then b.subs.Keys else {})
    && b.broadcastJoined == (if b.broadcast then b.subs.Keys else {})
  }

  /** No topic is ever without a subscriber, and broadcast is joined within the map, whatever gossipsub does. */
  lemma {:induction false} TopicsNeverEmpty(gossip: bool, broadcast: bool, ins: seq<Input>)
    ensures var b := After(Empty(gossip, broadcast), ins);
      NoEmptyTopic(b) && b.broadcastJoined <= (if b.broadcast then b.subs.Keys else {})
  {
    if ins == [] {
    } else {
      TopicsNeverEmpty(gossip, broadcast, ins[..|ins| - 1]);
    }
  }

  /** Gossipsub refuses a topic that is new to the map. */
  predicate Refuses(b: Board, i: Input) {
    i.Join? && b.gossip && i.topic !in b.subs && !i.joins
  }

  /** The last subscriber of a joined topic is gone, and gossipsub fails to leave it. */
  predicate Lingers(b: Board, i: Input) {
    && i.Publish? && b.gossip && !i.leaves
    && i.topic in b.subs && i.topic in b.gossipJoined && Delivered(b.subs[i.topic], i.event) == []
  }

  /** The joined topics stay within the map's keys if and only if gossipsub does not fail to leave one. */
  lemma WithinStep(b: Board, i: Input)
    requires JoinedWithin(b)
    ensures JoinedWithin(Step(b, i)) <==> !Lingers(b, i)
  {
    if Lingers(b, i) {
      assert i.topic in Step(b, i).gossipJoined && i.topic !in Step(b, i).subs;
    }
  }

  /** They stay exactly the keys if and only if gossipsub neither refuses a new topic nor fails to leave one. */
  lemma JoinedStep(b: Board, i: Input)
    requires JoinedExactly(b)
    ensures JoinedExactly(Step(b, i)) <==> !Refuses(b, i) && !Lingers(b, i)
  {
    if Refuses(b, i) {
      assert i.topic in Step(b, i).subs.Keys && i.topic !in Step(b, i).gossipJoined;
    } else if Lingers(b, i) {
      assert i.topic in Step(b, i).gossipJoined && i.topic !in Step(b, i).subs;
    }
  }

  /** The state in which the k-th input is taken. */
  function At(gossip: bool, broadcast: bool, ins: seq<Input>, k: nat): Board
    requires k <= |ins|
  {
    After(Empty(gossip, broadcast), ins[..k])
  }

  lemma AtNext(gossip: bool, broadcast: bool, ins: seq<Input>, k: nat)
    requires k < |ins|
    ensures At(gossip, broadcast, ins, k + 1) == Step(At(gossip, broadcast, ins, k), ins[k])
  {
    assert ins[..k + 1][..k] == ins[..k];
  }

  ghost predicate NeverRefused(gossip: bool, broadcast: bool, ins: seq<Input>) {
    forall k :: 0 <= k < |ins| ==> !Refuses(At(gossip, broadcast, ins, k), ins[k])
  }

  ghost predicate NeverLingers(gossip: bool, broadcast: bool, ins: seq<Input>) {
    forall k :: 0 <= k < |ins| ==> !Lingers(At(gossip, broadcast, ins, k), ins[k])
  }

  lemma {:induction false} WithinUpTo(gossip: bool, broadcast: bool, ins: seq<Input>, k: nat)
    requires k <= |ins| && NeverLingers(gossip, broadcast, ins)
    ensures JoinedWithin(At(gossip, broadcast, ins, k))
  {
    if k == 0 {
    } else {
      WithinUpTo(gossip, broadcast, ins, k - 1);
      AtNext(gossip, broadcast, ins, k - 1);
      WithinStep(At(gossip, broadcast, ins, k - 1), ins[k - 1]);
    }
  }

  /** Over every run, nothing outside the map is ever joined if and only if gossipsub never fails to leave a topic. */
  lemma WithinAlwaysIff(gossip: bool, broadcast: bool, ins: seq<Input>)
    ensures (forall k :: 0 <= k <= |ins| ==> JoinedWithin(At(gossip, broadcast, ins, k)))
       <==> NeverLingers(gossip, broadcast, ins)
  {
    if NeverLingers(gossip, broadcast, ins) {
      forall k | 0 <= k <= |ins| ensures JoinedWithin(At(gossip, broadcast, ins, k)) {
        WithinUpTo(gossip, broadcast, ins, k);
      }
    } else {
      var k :| 0 <= k < |ins| && Lingers(At(gossip, broadcast, ins, k), ins[k]);
      AtNext(gossip, broadcast, ins, k);
      if JoinedWithin(At(gossip, broadcast, ins, k)) {
        WithinStep(At(gossip, broadcast, ins, k), ins[k]);
        assert !JoinedWithin(At(gossip, broadcast, ins, k + 1));
      }
    }
  }

  lemma {:induction false} JoinedUpTo(gossip: bool, broadcast: bool, ins: seq<Input>, k: nat)
    requires k <= |ins| && NeverRefused(gossip, broadcast, ins) && NeverLingers(gossip, broadcast, ins)
    ensures JoinedExactly(At(gossip, broadcast, ins, k))
  {
    if k == 0 {
    } else {
      JoinedUpTo(gossip, broadcast, ins, k - 1);
      AtNext(gossip, broadcast, ins, k - 1);
      JoinedStep(At(gossip, broadcast, ins, k - 1), ins[k - 1]);
    }
  }

  /**
   Over every run, the joined topics are always exactly the map's keys if and only if gossipsub
   never refuses a new topic and never fails to leave one.
   */
  lemma JoinedAlwaysIff(gossip: bool, broadcast: bool, ins: seq<Input>)
    ensures (forall k :: 0 <= k <= |ins| ==> JoinedExactly(At(gossip, broadcast, ins, k)))
       <==> NeverRefused(gossip, broadcast, ins) && NeverLingers(gossip, broadcast, ins)
  {
    if NeverRefused(gossip, broadcast, ins) && NeverLingers(gossip, broadcast, ins) {
      forall k | 0 <= k <= |ins| ensures JoinedExactly(At(gossip, broadcast, ins, k)) {
        JoinedUpTo(gossip, broadcast, ins, k);
      }
    } else {
      var k :| 0 <= k < |ins|
        && (Refuses(At(gossip, broadcast, ins, k), ins[k]) || Lingers(At(gossip, broadcast, ins, k), ins[k]));
      AtNext(gossip, broadcast, ins, k);
      if JoinedExactly(At(gossip, broadcast, ins, k)) {
        JoinedStep(At(gossip, broadcast, ins, k), ins[k]);
        assert !JoinedExactly(At(gossip, broadcast, ins, k + 1));
      }
    }
  }

  /** A topic is joined, its only receiver goes away, and leaving it fails. */
  function LingeringRun(topic: string, id: int, e: GossipEvent): seq<Input> {
    [Join(topic, id, true), Leave(id), Publish(topic, e, false)]
  }

  /** That run refuses nothing and leaves the topic joined although nobody is subscribed to it. */
  lemma LingerIsReachable(broadcast: bool, topic: string, id: int, e: GossipEvent)
    ensures NeverRefused(true, broadcast, LingeringRun(topic, id, e))
    ensures var b := After(Empty(true, broadcast), LingeringRun(topic, id, e));
      topic in b.gossipJoined && topic !in b.subs
  {
    var ins := LingeringRun(topic, id, e);
    AtNext(true, broadcast, ins, 0);
    AtNext(true, broadcast, ins, 1);
    AtNext(true, broadcast, ins, 2);
    assert ins[..0] == [] && ins[..3] == ins;
    assert At(true, broadcast, ins, 3) == After(Empty(true, broadcast), ins);
    var b: Board := At(true, broadcast, ins, 2);
    assert b.subs[topic] == [Subscriber(id, false, [])];
    assert b.subs[topic][..0] == [];
    assert Delivered(b.subs[topic], e) == [];
  }

  /** After a refusal a further subscriber of the topic is accepted although the topic was never joined. */
  lemma RefusalSticks(b: Board, topic: string, id: int, id': int)
    requires JoinedExactly(b) && b.gossip && topic !in b.subs
    ensures var b' := SubscribeTo(b, topic, id, false);
      && !Accepted(b, topic, false)
      && Accepted(b', topic, true)
      && topic !in SubscribeTo(b', topic, id', true).gossipJoined
  {}

  // ---------- every subscriber sees its topic ----------

  function TopicSubs(b: Board, topic: string): seq<Subscriber<GossipEvent>> {
    if topic in b.subs then b.subs[topic] else []
  }

  /** A caller gets its receiver exactly when a sender for it is then listed open. */
  lemma AcceptedIff(b: Board, topic: string, id: int, joins: bool)
    requires forall s :: s in TopicSubs(b, topic) ==> s.id != id
    ensures Accepted(b, topic, joins)
       <==> Subscriber(id, true, []) in TopicSubs(SubscribeTo(b, topic, id, joins), topic)
  {
    var b' := SubscribeTo(b, topic, id, joins);
    if Accepted(b, topic, joins) {
      var subs := TopicSubs(b', topic);
      assert subs[|subs| - 1] == Subscriber(id, true, []);
    }
  }

  /** What an input means for the subscribers of one topic. */
  function OpsOf(b: Board, i: Input, topic: string): seq<Op<GossipEvent>> {
    match i
    case Join(t, id, joins) =>
      if t != topic || (!b.gossip && !b.broadcast) then []
      else if Accepted(b, t, joins) then [Subscribe(id)] else [Subscribe(id), Drop(id)]
    case Publish(t, e, _) => if t == topic then [Send(e)] else []
    case Leave(id) => [Drop(id)]
  }

  function TopicOps(b: Board, ins: seq<Input>, topic: string): seq<Op<GossipEvent>> {
    if ins == [] then []
    else
      var n := |ins| - 1;
      TopicOps(b, ins[..n], topic) + OpsOf(After(b, ins[..n]), ins[n], topic)
  }

  /** The subscribers of a topic after a list of operations. */
  function PerformAll(subs: seq<Subscriber<GossipEvent>>, ops: seq<Op<GossipEvent>>): seq<Subscriber<GossipEvent>> {
    if ops == [] then subs else Perform(PerformAll(subs, ops[..|ops| - 1]), ops[|ops| - 1])
  }

  lemma {:induction false} HistoryAppend(ops: seq<Op<GossipEvent>>, more: seq<Op<GossipEvent>>)
    ensures History(ops + more) == PerformAll(History(ops), more)
  {
    if more == [] {
      assert ops + more == ops;
    } else {
      var n := |more| - 1;
      assert (ops + more)[..|ops + more| - 1] == ops + more[..n];
      HistoryAppend(ops, more[..n]);
    }
  }

  lemma PerformOne(subs: seq<Subscriber<GossipEvent>>, op: Op<GossipEvent>)
    ensures PerformAll(subs, [op]) == Perform(subs, op)
  {
    assert [op][..0] == [];
  }

  lemma JoinTopic(b: Board, t: string, id: int, joins: bool, topic: string)
    ensures TopicSubs(SubscribeTo(b, t, id, joins), topic)
      == PerformAll(TopicSubs(b, topic), OpsOf(b, Join(t, id, joins), topic))
  {
    var subs, more := TopicSubs(b, topic), OpsOf(b, Join(t, id, joins), topic);
    if |more| >= 1 {
      PerformOne(subs, Subscribe(id));
    }
    if |more| == 2 {
      var s: Subscriber<GossipEvent> := Subscriber(id, true, []);
      assert more[..1] == [Subscribe(id)];
      assert subs + [s] == [s];
      assert Dropped([s], id) == [s.(open := false)];
    }
  }

  lemma PublishTopic(b: Board, t: string, e: GossipEvent, leaves: bool, topic: string)
    ensures TopicSubs(NotifySubscribers(b, t, e, leaves), topic)
         == PerformAll(TopicSubs(b, topic), OpsOf(b, Publish(t, e, leaves), topic))
  {
    PerformOne(TopicSubs(b, topic), Send(e));
  }

  lemma LeaveTopic(b: Board, id: int, topic: string)
    ensures TopicSubs(DropReceiver(b, id), topic) == PerformAll(TopicSubs(b, topic), OpsOf(b, Leave(id), topic))
  {
    PerformOne(TopicSubs(b, topic), Drop(id));
  }

  lemma TopicStep(b: Board, i: Input, topic: string, ops: seq<Op<GossipEvent>>)
    requires TopicSubs(b, topic) == History(ops)
    ensures TopicSubs(Step(b, i), topic) == History(ops + OpsOf(b, i, topic))
  {
    HistoryAppend(ops, OpsOf(b, i, topic));
    match i
    case Join(t, id, joins) => JoinTopic(b, t, id, joins, topic);
    case Publish(t, e, leaves) => PublishTopic(b, t, e, leaves, topic);
    case Leave(id) => LeaveTopic(b, id, topic);
  }

  /** Some input made or dropped the receiver with this id. */
  ghost predicate Used(ins: seq<Input>, id: int) {
    exists k :: 0 <= k < |ins| && !ins[k].Publish? && ins[k].id == id
  }

  /** Every receiver is made once, and dropped only afterwards. */
  ghost predicate FreshReceivers(ins: seq<Input>) {
    forall k :: 0 <= k < |ins| && ins[k].Join? ==> !Used(ins[..k], ins[k].id)
  }

  lemma {:induction false} OpsUseIds(b: Board, ins: seq<Input>, topic: string, id: int)
    requires !Used(ins, id)
    ensures Subscribe(id) !in TopicOps(b, ins, topic) && Drop(id) !in TopicOps(b, ins, topic)
  {
    if ins == [] {
    } else {
      var n := |ins| - 1;
      assert !Used(ins[..n], id) by {
        assert forall k :: 0 <= k < n ==> ins[..n][k] == ins[k];
      }
      OpsUseIds(b, ins[..n], topic, id);
      assert !(!ins[n].Publish? && ins[n].id == id);
    }
  }

  lemma {:induction false} TopicOpsFresh(b: Board, ins: seq<Input>, topic: string)
    requires FreshReceivers(ins)
    ensures FreshIds(TopicOps(b, ins, topic))
  {
    if ins == [] {
    } else {
      var n := |ins| - 1;
      assert FreshReceivers(ins[..n]) by {
        forall k | 0 <= k < n && ins[..n][k].Join? ensures !Used(ins[..n][..k], ins[..n][k].id) {
          assert ins[..n][..k] == ins[..k];
        }
      }
      TopicOpsFresh(b, ins[..n], topic);
      if ins[n].Join? {
        OpsUseIds(b, ins[..n], topic, ins[n].id);
      }
      FreshAppend(TopicOps(b, ins[..n], topic), OpsOf(After(b, ins[..n]), ins[n], topic));
    }
  }

  /** Appending at most one new registration, perhaps dropped at once, keeps ids fresh. */
  lemma FreshAppend(ops: seq<Op<GossipEvent>>, more: seq<Op<GossipEvent>>)
    requires FreshIds(ops)
    requires forall k :: 0 <= k < |more| && more[k].Subscribe? ==>
      k == 0 && more[k] !in ops && Drop(more[k].id) !in ops
    ensures FreshIds(ops + more)
  {}

  /**
   At any time a subscriber whose receiver lives holds exactly the events of its topic since it
   joined, in order, across the topic being left and joined again in between.
   */
  lemma {:induction false} TopicFanOut(gossip: bool, broadcast: bool, ins: seq<Input>, topic: string)
    ensures var b := After(Empty(gossip, broadcast), ins);
      var ops := TopicOps(Empty(gossip, broadcast), ins, topic);
      && TopicSubs(b, topic) == History(ops)
      && (FreshReceivers(ins) ==> SeesSuffix(ops, TopicSubs(b, topic)))
  {
    var b0 := Empty(gossip, broadcast);
    if ins == [] {
    } else {
      var n := |ins| - 1;
      TopicFanOut(gossip, broadcast, ins[..n], topic);
      TopicStep(After(b0, ins[..n]), ins[n], topic, TopicOps(b0, ins[..n], topic));
    }
    var ops := TopicOps(b0, ins, topic);
    if FreshReceivers(ins) {
      TopicOpsFresh(b0, ins, topic);
      SubscribersSeeSuffix(ops);
    }
  }
}
