/** Delivery of events to subscribers: a send fails once the receiver is gone, and failing senders are dropped. */
module FanOut {
  import opened Multiaddrs
  import opened Books

  /** The sending half of a channel with what was put into it; `open` while the receiver lives. */
  datatype Subscriber<E> = Subscriber(id: int, open: bool, inbox: seq<E>)

  /** Sends e to every subscriber and retains those that took it. */
  function Delivered<E>(subs: seq<Subscriber<E>>, e: E): seq<Subscriber<E>> {
    if subs == [] then []
    else
      var n := |subs| - 1;
      Delivered(subs[..n], e) + (if subs[n].open then [subs[n].(inbox := subs[n].inbox + [e])] else [])
  }

  method Deliver<E>(subs: seq<Subscriber<E>>, e: E) returns (kept: seq<Subscriber<E>>)
    ensures kept == Delivered(subs, e)
  {
    kept := [];
    for i := 0 to |subs|
      invariant kept == Delivered(subs[..i], e)
    {
      assert subs[..i + 1][..i] == subs[..i];
      if subs[i].open {
        kept := kept + [subs[i].(inbox := subs[i].inbox + [e])];
      }
    }
    assert subs[..|subs|] == subs;
  }

  /** The receiver with this id goes away. */
  function Dropped<E>(subs: seq<Subscriber<E>>, id: int): (r: seq<Subscriber<E>>)
    ensures |r| == |subs|
  {
    seq(|subs|, i requires 0 <= i < |subs| => if subs[i].id == id then subs[i].(open := false) else subs[i])
  }

  /** Every subscriber that stays was open and got e as its latest event. */
  lemma {:induction false} DeliveredFrom<E>(subs: seq<Subscriber<E>>, e: E, s: Subscriber<E>) returns (t: Subscriber<E>)
    requires s in Delivered(subs, e)
    ensures t in subs && t.open && s == t.(inbox := t.inbox + [e])
  {
    var n := |subs| - 1;
    if s in Delivered(subs[..n], e) {
      t := DeliveredFrom(subs[..n], e, s);
    } else {
      t := subs[n];
    }
  }

  /** Every open subscriber stays. */
  lemma {:induction false} DeliveredTo<E>(subs: seq<Subscriber<E>>, e: E, t: Subscriber<E>)
    requires t in subs && t.open
    ensures t.(inbox := t.inbox + [e]) in Delivered(subs, e)
  {
    var n := |subs| - 1;
    if t != subs[n] {
      assert subs == subs[..n] + [subs[n]];
      DeliveredTo(subs[..n], e, t);
    }
  }

  // ---------- whole histories ----------

  datatype Op<E> = Subscribe(id: int) | Send(event: E) | Drop(id: int)

  function Perform<E>(subs: seq<Subscriber<E>>, op: Op<E>): seq<Subscriber<E>> {
    match op
    case Subscribe(id) => subs + [Subscriber(id, true, [])]
    case Send(e) => Delivered(subs, e)
    case Drop(id) => Dropped(subs, id)
  }

  function History<E>(ops: seq<Op<E>>): seq<Subscriber<E>> {
    if ops == [] then [] else Perform(History(ops[..|ops| - 1]), ops[|ops| - 1])
  }

  /** Every event sent so far. */
  function EventsOf<E>(ops: seq<Op<E>>): seq<E> {
    if ops == [] then []
    else
      var before := EventsOf(ops[..|ops| - 1]);
      if ops[|ops| - 1].Send? then before + [ops[|ops| - 1].event] else before
  }

  /** The events sent before the subscriber registered, or all when it never did. */
  function SentBefore<E(==)>(ops: seq<Op<E>>, id: int): seq<E> {
    if ops == [] then []
    else if ops[|ops| - 1] == Subscribe(id) then EventsOf(ops[..|ops| - 1])
    else if Registered(ops[..|ops| - 1], id) then SentBefore(ops[..|ops| - 1], id)
    else EventsOf(ops)
  }

  lemma {:induction false} SentSplits<E>(ops: seq<Op<E>>, id: int)
    requires Registered(ops, id)
    ensures EventsOf(ops) == SentBefore(ops, id) + SentSince(ops, id)
  {
    var n := |ops| - 1;
    if ops[n] == Subscribe(id) {
    } else {
      assert ops == ops[..n] + [ops[n]];
      assert Registered(ops[..n], id);
      SentSplits(ops[..n], id);
    }
  }

  /** The events sent after the subscriber registered. */
  function SentSince<E>(ops: seq<Op<E>>, id: int): seq<E> {
    if ops == [] || ops[|ops| - 1] == Subscribe(id) then []
    else
      var before := SentSince(ops[..|ops| - 1], id);
      if ops[|ops| - 1].Send? then before + [ops[|ops| - 1].event] else before
  }

  predicate Registered<E(==)>(ops: seq<Op<E>>, id: int) {
    Subscribe(id) in ops
  }

  predicate Live<E(==)>(ops: seq<Op<E>>, id: int) {
    Registered(ops, id) && Drop(id) !in ops
  }

  /** Every channel is created once, and its receiver goes away only afterwards. */
  predicate FreshIds<E(==)>(ops: seq<Op<E>>) {
    forall i, j :: 0 <= i < j < |ops| && ops[j].Subscribe? ==> ops[i] != ops[j] && ops[i] != Drop(ops[j].id)
  }

  /**
   The open senders on the list are exactly those of the live subscribers, each holding the
   events sent since it registered.  The sender of a receiver that went away stays on the list,
   closed, until the next send.
   */
  ghost predicate SeesSuffix<E>(ops: seq<Op<E>>, subs: seq<Subscriber<E>>) {
    && (forall id :: Live(ops, id) ==> Subscriber(id, true, SentSince(ops, id)) in subs)
    && (forall s :: s in subs && s.open ==> Live(ops, s.id) && s.inbox == SentSince(ops, s.id))
  }

  lemma SubscribeSees<E>(init: seq<Op<E>>, subs: seq<Subscriber<E>>, id: int)
    requires SeesSuffix(init, subs) && Subscribe(id) !in init && Drop(id) !in init
    ensures SeesSuffix(init + [Subscribe(id)], subs + [Subscriber(id, true, [])])
  {
    var ops, subs' := init + [Subscribe(id)], subs + [Subscriber(id, true, [])];
    assert ops[..|ops| - 1] == init;
    forall i | Live(ops, i) ensures Subscriber(i, true, SentSince(ops, i)) in subs' {
      if i != id {
        assert Live(init, i);
      }
    }
  }

  lemma SendKeepsLive<E>(init: seq<Op<E>>, subs: seq<Subscriber<E>>, e: E, id: int)
    requires SeesSuffix(init, subs) && Live(init + [Send(e)], id)
    ensures Subscriber(id, true, SentSince(init + [Send(e)], id)) in Delivered(subs, e)
  {
    var ops := init + [Send(e)];
    assert ops[..|ops| - 1] == init;
    assert Live(init, id);
    var s := Subscriber(id, true, SentSince(init, id));
    assert s in subs;
    DeliveredTo(subs, e, s);
  }

  lemma SendKeepsOnlyLive<E>(init: seq<Op<E>>, subs: seq<Subscriber<E>>, e: E, s: Subscriber<E>)
    requires SeesSuffix(init, subs) && s in Delivered(subs, e)
    ensures Live(init + [Send(e)], s.id) && s.inbox == SentSince(init + [Send(e)], s.id)
  {
    var ops := init + [Send(e)];
    assert ops[..|ops| - 1] == init;
    var t := DeliveredFrom(subs, e, s);
  }

  lemma SendSees<E>(init: seq<Op<E>>, subs: seq<Subscriber<E>>, e: E)
    requires SeesSuffix(init, subs)
    ensures SeesSuffix(init + [Send(e)], Delivered(subs, e))
  {
    var ops, subs' := init + [Send(e)], Delivered(subs, e);
    forall s | s in subs' ensures Live(ops, s.id) && s.inbox == SentSince(ops, s.id) {
      SendKeepsOnlyLive(init, subs, e, s);
    }
    forall id | Live(ops, id) ensures Subscriber(id, true, SentSince(ops, id)) in subs' {
      SendKeepsLive(init, subs, e, id);
    }
  }

  lemma DropSees<E>(init: seq<Op<E>>, subs: seq<Subscriber<E>>, id: int)
    requires SeesSuffix(init, subs)
    ensures SeesSuffix(init + [Drop(id)], Dropped(subs, id))
  {
    var ops, subs' := init + [Drop(id)], Dropped(subs, id);
    assert ops[..|ops| - 1] == init;
    forall s | s in subs' && s.open ensures Live(ops, s.id) && s.inbox == SentSince(ops, s.id) {
      assert s in subs;
    }
    forall i | Live(ops, i) ensures Subscriber(i, true, SentSince(ops, i)) in subs' {
      assert i != id;
      assert Live(init, i);
      var k :| 0 <= k < |subs| && subs[k] == Subscriber(i, true, SentSince(init, i));
      assert subs'[k] == subs[k];
    }
  }

  /**
   At any time exactly the subscribers whose receiver lives are open, and each has received
   exactly the events sent since it registered.
   */
  lemma {:induction false} SubscribersSeeSuffix<E>(ops: seq<Op<E>>)
    requires FreshIds(ops)
    ensures SeesSuffix(ops, History(ops))
  {
    if ops == [] {
    } else {
      var n := |ops| - 1;
      var init, op := ops[..n], ops[n];
      assert ops == init + [op];
      SubscribersSeeSuffix(init);
      match op
      case Subscribe(id) => SubscribeSees(init, History(init), id);
      case Send(e) => SendSees(init, History(init), e);
      case Drop(id) => DropSees(init, History(init), id);
    }
  }

  // ---------- events of one listener ----------

  datatype ListenerEvent = NewAddr(addr: Multiaddr) | ExpiredAddr(addr: Multiaddr)

  /** What an event means to the listener `id`: nothing for other listeners. */
  function ForListener(id: int, e: Event): seq<ListenerEvent> {
    if e.NewListenAddr? && e.id == id then [NewAddr(e.addr)]
    else if e.ExpiredListenAddr? && e.id == id then [ExpiredAddr(e.addr)]
    else []
  }

  function FilterListener(id: int, log: seq<Event>): seq<ListenerEvent> {
    if log == [] then [] else FilterListener(id, log[..|log| - 1]) + ForListener(id, log[|log| - 1])
  }

  /** The events up to the listener's close. */
  function UntilClosed(id: int, log: seq<Event>): seq<Event> {
    if log == [] || log[0] == ListenerClosed(id) then [] else [log[0]] + UntilClosed(id, log[1..])
  }

  lemma {:induction false} FilterPrefix(id: int, log: seq<Event>, k: nat)
    requires k <= |log|
    ensures FilterListener(id, log[..k]) <= FilterListener(id, log)
  {
    if k == |log| {
      assert log[..k] == log;
    } else {
      FilterPrefix(id, log[..|log| - 1], k);
      assert log[..|log| - 1][..k] == log[..k];
    }
  }

  lemma {:induction false} UntilClosedSkips(id: int, log: seq<Event>, k: nat)
    requires k <= |log| && ListenerClosed(id) !in log[..k]
    ensures UntilClosed(id, log) == log[..k] + UntilClosed(id, log[k..])
  {
    if k == 0 {
    } else {
      assert log[0] in log[..k];
      assert log[1..][..k - 1] == log[..k][1..];
      UntilClosedSkips(id, log[1..], k - 1);
      assert log[1..][k - 1..] == log[k..];
    }
  }

  predicate Concerns(id: int, e: Event) {
    ForListener(id, e) != [] || e == ListenerClosed(id)
  }

  lemma {:induction false} FilterAppend(id: int, x: seq<Event>, y: seq<Event>)
    requires forall e :: e in x ==> !Concerns(id, e)
    ensures FilterListener(id, x + y) == FilterListener(id, y)
  {
    if y == [] {
      assert x + y == x;
      if x == [] {
      } else {
        FilterAppend(id, x[..|x| - 1], []);
        assert x[|x| - 1] in x;
        assert x[..|x| - 1] + [] == x[..|x| - 1];
      }
    } else {
      FilterAppend(id, x, y[..|y| - 1]);
      assert (x + y)[..|x + y| - 1] == x + y[..|y| - 1];
    }
  }

  /**
   A listener's stream registers with the event stream before the listener exists, so that no
   event concerns it earlier.  What there is to forward from its inbox is then what the whole
   log holds for that listener up to its close.
   */
  lemma ListenerSeesItsEvents(ops: seq<Op<Event>>, sub: int, id: int)
    requires FreshIds(ops) && Live(ops, sub)
    requires forall e :: e in SentBefore(ops, sub) ==> !Concerns(id, e)
    ensures Subscriber(sub, true, SentSince(ops, sub)) in History(ops)
    ensures FilterListener(id, UntilClosed(id, SentSince(ops, sub)))
      == FilterListener(id, UntilClosed(id, EventsOf(ops)))
  {
    SubscribersSeeSuffix(ops);
    SentSplits(ops, sub);
    var x, y := SentBefore(ops, sub), SentSince(ops, sub);
    assert (x + y)[..|x|] == x && (x + y)[|x|..] == y;
    UntilClosedSkips(id, x + y, |x|);
    FilterAppend(id, x, UntilClosed(id, y));
  }

  /**
   Forwards the events of one listener until it is closed or the response channel refuses one;
   `accepts` is the number of events that channel takes before its receiver goes away.
   */
  method ForwardListenerEvents(id: int, rx: seq<Event>, accepts: nat) returns (sent: seq<ListenerEvent>)
    ensures var all := FilterListener(id, UntilClosed(id, rx));
      sent == if |all| <= accepts then all else all[..accepts]
  {
    sent := [];
    var i := 0;
    while i < |rx| && rx[i] != ListenerClosed(id)
      invariant 0 <= i <= |rx|
      invariant ListenerClosed(id) !in rx[..i]
      invariant sent == FilterListener(id, rx[..i])
      invariant |sent| <= accepts
      decreases |rx| - i
    {
      ForwardStep(id, rx, i);
      if rx[i].NewListenAddr? && rx[i].id == id {
        if |sent| == accepts {
          return;
        }
        sent := sent + [NewAddr(rx[i].addr)];
      } else if rx[i].ExpiredListenAddr? && rx[i].id == id {
        if |sent| == accepts {
          return;
        }
        sent := sent + [ExpiredAddr(rx[i].addr)];
      }
      i := i + 1;
    }
    UntilClosedSkips(id, rx, i);
    assert UntilClosed(id, rx) == rx[..i];
  }

  lemma ForwardStep(id: int, rx: seq<Event>, i: nat)
    requires i < |rx| && rx[i] != ListenerClosed(id) && ListenerClosed(id) !in rx[..i]
    ensures ListenerClosed(id) !in rx[..i + 1]
    ensures FilterListener(id, rx[..i + 1]) == FilterListener(id, rx[..i]) + ForListener(id, rx[i])
    ensures FilterListener(id, rx[..i + 1]) <= FilterListener(id, UntilClosed(id, rx))
  {
    assert rx[..i + 1][..i] == rx[..i];
    UntilClosedSkips(id, rx, i + 1);
    assert UntilClosed(id, rx)[..i + 1] == rx[..i + 1];
    FilterPrefix(id, UntilClosed(id, rx), i + 1);
  }

  /** What is forwarded of each kind is what the log holds of that kind for the listener. */
  lemma {:induction false} ForwardedKinds(id: int, log: seq<Event>, a: Multiaddr)
    ensures NewAddr(a) in FilterListener(id, log) <==> NewListenAddr(id, a) in log
    ensures ExpiredAddr(a) in FilterListener(id, log) <==> ExpiredListenAddr(id, a) in log
  {
    if log == [] {
    } else {
      var n := |log| - 1;
      ForwardedKinds(id, log[..n], a);
      assert log == log[..n] + [log[n]];
    }
  }

  /** The events up to a listener's close are the longest beginning of the log that is free of that close. */
  lemma {:induction false} UntilClosedExact(id: int, log: seq<Event>)
    ensures var x := UntilClosed(id, log);
      x <= log && ListenerClosed(id) !in x && (|x| < |log| ==> log[|x|] == ListenerClosed(id))
  {
    if log == [] || log[0] == ListenerClosed(id) {
    } else {
      UntilClosedExact(id, log[1..]);
    }
  }
}
