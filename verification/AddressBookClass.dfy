/** The address book as the source has it: an object whose handlers update peers, queues and subscribers in place. */
module AddressBooks {
  import opened Options
  import opened Multiaddrs
  import opened PeerInfos
  import opened Books
  import opened FanOut
  import opened Swarms
  import opened Reachable

  /** Between the two histories there were only notifications. */
  ghost predicate OnlySends(before: seq<Op<Event>>, after: seq<Op<Event>>) {
    before <= after && forall i :: |before| <= i < |after| ==> after[i].Send?
  }

  class AddressBook {
    const cfg: Config
    var listeners: set<Multiaddr>
    var peers: map<PeerId, Info>
    var eventStream: seq<Subscriber<Event>>
    var actions: seq<Dialling>
    var deferred: multiset<Dialling>
    ghost var ops: seq<Op<Event>>

    /** The subscribers are what their history made them. */
    ghost predicate Valid()
      reads this
    {
      eventStream == FanOut.History(ops)
    }

    ghost function State(): Book
      reads this
    {
      Book(listeners, peers, actions, deferred, EventsOf(ops))
    }

    /** Well-formedness of the book, which every handler keeps. */
    ghost predicate Kept()
      reads this
    {
      BookOk(cfg, State())
    }

    constructor (cfg: Config)
      ensures Kept()
      ensures Valid() && this.cfg == cfg && ops == []
      ensures State() == Book({}, map[], [], multiset{}, [])
    {
      this.cfg := cfg;
      listeners, peers, eventStream, actions, deferred := {}, map[], [], [], multiset{};
      ops := [];
    }

    // ---------- subscribers ----------

    method SwarmEvents(id: int)
      requires Valid()
      modifies this`eventStream, this`ops
      ensures Valid() && State() == old(State())
      ensures ops == old(ops) + [Subscribe(id)]
    {
      eventStream := eventStream + [Subscriber(id, true, [])];
      ops := ops + [Subscribe(id)];
      assert ops[..|ops| - 1] == old(ops);
    }

    /** The receiving half of a subscription goes away; its sender stays listed until the next notification. */
    method ReceiverDropped(id: int)
      requires Valid()
      modifies this`eventStream, this`ops
      ensures Valid() && State() == old(State())
      ensures ops == old(ops) + [Drop(id)]
    {
      eventStream := Dropped(eventStream, id);
      ops := ops + [Drop(id)];
      assert ops[..|ops| - 1] == old(ops);
    }

    method Notify(e: Event)
      requires Valid()
      modifies this`eventStream, this`ops
      ensures Valid() && State() == Books.Notify(old(State()), e)
      ensures ops == old(ops) + [Send(e)]
    {
      eventStream := Deliver(eventStream, e);
      ops := ops + [Send(e)];
      assert ops[..|ops| - 1] == old(ops);
    }

    /** Notifies a batch of events, one after the other. */
    method NotifyAll(events: seq<Event>)
      requires Valid()
      modifies this`eventStream, this`ops
      ensures Valid() && EventsOf(ops) == old(EventsOf(ops)) + events
      ensures OnlySends(old(ops), ops)
    {
      for i := 0 to |events|
        invariant Valid() && OnlySends(old(ops), ops)
        invariant EventsOf(ops) == old(EventsOf(ops)) + events[..i]
      {
        ghost var before := EventsOf(ops);
        Notify(events[i]);
        assert EventsOf(ops) == before + [events[i]];
        assert old(EventsOf(ops)) + events[..i] + [events[i]] == old(EventsOf(ops)) + events[..i + 1];
      }
      assert events[..|events|] == events;
    }

    /** Subscribers whose receiver lives have received exactly what was notified since they registered. */
    lemma SubscribersUpToDate()
      requires Valid() && FreshIds(ops)
      ensures SeesSuffix(ops, eventStream)
    {
      SubscribersSeeSuffix(ops);
    }

    // ---------- commands ----------

    method Dial(p: PeerId)
      requires Valid()
      modifies this`actions
      ensures Valid() && State() == DialPeer(cfg, old(State()), p)
      ensures old(Kept()) ==> Kept()
    {
      StepKeepsBook(cfg, Sys(State(), multiset{}, map[]), CmdDial(p));
      if p == cfg.local {
        return;
      }
      actions := actions + [Dialling(p, false, [], Handler(None, cfg.keepAlive))];
    }

    /** Borrows the record of a peer, default when missing. */
    method Entry(p: PeerId) returns (info: PeerInfo)
      ensures fresh(info) && info.Value() == PeerOf(State(), p)
      ensures info.rtt != null ==> fresh(info.rtt)
    {
      if p in peers {
        info := new PeerInfo(peers[p]);
      } else {
        info := new PeerInfo(DEFAULT_INFO);
      }
    }

    method DialAddress(p: PeerId, addr: Multiaddr)
      requires Valid()
      modifies this`peers, this`actions
      ensures Valid() && State() == Books.DialAddress(cfg, old(State()), p, addr)
      ensures old(Kept()) ==> Kept()
    {
      StepKeepsBook(cfg, Sys(State(), multiset{}, map[]), CmdDialAddress(p, addr));
      if p == cfg.local {
        return;
      }
      var target := Normalize(addr, p);
      var info := Entry(p);
      peers := peers[p := info.Value()];
      if target in info.connections {
        return;
      }
      actions := actions + [Dialling(p, false, [addr],
        Handler(Some(Probe(target, SIM_OPEN_RETRIES + 1)), cfg.keepAlive))];
    }

    /** Files the address and queues its validation when that is called for. */
    method Learn(p: PeerId, address: Multiaddr, full: Multiaddr, source: AddressSource, now: int)
      requires Valid() && address == Pop(full)
      modifies this`peers, this`actions
      ensures Valid()
      ensures var info := PeerOf(old(State()), p);
        peers == old(peers)[p := info.(addresses := Ingest(info.addresses, full, source, now))]
      ensures var info := PeerOf(old(State()), p);
        actions == old(actions) + if Probes(info.addresses, full, source) && full !in info.connections
                                  then [ValidationDial(p, full, SIM_OPEN_RETRIES + 1)] else []
    {
      var info := Entry(p);
      var result := info.IngestAddress(full, source, now);
      result := result && full !in info.connections;
      peers := peers[p := info.Value()];
      if result {
        actions := actions + [Dialling(p, true, [address], Handler(Some(Probe(full, SIM_OPEN_RETRIES + 1)), false))];
      }
    }

    method AddAddress(p: PeerId, addr: Multiaddr, source: AddressSource, now: int)
      requires Valid()
      modifies this`peers, this`actions, this`eventStream, this`ops
      ensures Valid() && State() == Books.AddAddress(cfg, old(State()), p, addr, source, now)
      ensures OnlySends(old(ops), ops)
      ensures old(Kept()) ==> Kept()
    {
      OfferKeepsBook(cfg, State(), p, addr, source, now);
      TakeUp(p, addr, source, now);
    }

    /** The work of adding an address. */
    method TakeUp(p: PeerId, addr: Multiaddr, source: AddressSource, now: int)
      requires Valid()
      modifies this`peers, this`actions, this`eventStream, this`ops
      ensures Valid() && State() == Books.AddAddress(cfg, old(State()), p, addr, source, now)
      ensures OnlySends(old(ops), ops)
    {
      var ok, address, full := Admits(p, addr);
      if !ok {
        return;
      }
      var discovered := !(p in peers && HasConfirmed(peers[p].addresses));
      Learn(p, address, full, source, now);
      NotifyAll((if discovered && source.IsConfirmed() then [Discovered(p)] else []) + [NewInfo(p)]);
    }

    /** Whether an address is taken at all, and its forms with and without the peer. */
    method Admits(p: PeerId, addr: Multiaddr) returns (ok: bool, address: Multiaddr, full: Multiaddr)
      ensures ok == Admissible(cfg, State(), p, addr)
      ensures full == Normalize(addr, p) && address == Pop(full)
    {
      address, full := addr, Normalize(addr, p);
      if EndsInP2p(addr) {
        address := addr[..|addr| - 1];
      }
      ok := p != cfg.local && (cfg.enableLoopback || !IsLoopback(addr)) && address !in listeners;
    }

    method RemoveAddress(p: PeerId, addr: Multiaddr)
      requires Valid()
      modifies this`peers
      ensures Valid() && State() == Books.RemoveAddress(old(State()), p, addr)
      ensures old(Kept()) ==> Kept()
    {
      StepKeepsBook(cfg, Sys(State(), multiset{}, map[]), CmdRemove(p, addr));
      if p in peers {
        var info := Entry(p);
        info.addresses := info.addresses - {Normalize(addr, p)};
        peers := peers[p := info.Value()];
      }
    }

    // ---------- pruning ----------

    /** Looks for an address that keeps its peer, visiting the table in any order. */
    static method KeepsSome(t: Table, minAge: nat, now: int) returns (keep: bool)
      ensures keep <==> exists a :: a in t && KeepsAddress(t[a], minAge, now)
    {
      var todo := t.Keys;
      keep := false;
      while todo != {}
        invariant todo <= t.Keys
        invariant forall a :: a in t && a !in todo ==> !KeepsAddress(t[a], minAge, now)
        decreases todo
      {
        var a :| a in todo;
        var e := t[a];
        if e.source.IsConfirmed() {
          return true;
        }
        if e.source.IsToProbe() && Age(e.time, now) < (if minAge < TEN_SECONDS then TEN_SECONDS else minAge) {
          return true;
        }
        todo := todo - {a};
      }
    }

    static method Prunable(info: Info, minAge: nat, now: int) returns (prune: bool)
      ensures prune == !Keeps(info, minAge, now)
    {
      if info.connections != map[] {
        return false;
      }
      if info.failures != [] && Age(info.failures[0].time, now) < minAge {
        return false;
      }
      var keep := KeepsSome(info.addresses, minAge, now);
      prune := !keep;
    }

    method CollectPrunable(minAge: nat, now: int) returns (remove: seq<PeerId>)
      ensures Enumerates(remove, Doomed(State(), minAge, now))
    {
      remove := [];
      var todo := peers.Keys;
      while todo != {}
        invariant todo <= peers.Keys
        invariant forall p :: p in remove <==> p in peers && p !in todo && !Keeps(peers[p], minAge, now)
        invariant forall i, j :: 0 <= i < j < |remove| ==> remove[i] != remove[j]
        decreases todo
      {
        var p :| p in todo;
        var prune := Prunable(peers[p], minAge, now);
        todo := todo - {p};
        if prune {
          assert p !in remove;
          remove := remove + [p];
        }
      }
    }

    method PrunePeers(minAge: nat, now: int) returns (ghost visit: seq<PeerId>)
      requires Valid()
      modifies this`peers, this`eventStream, this`ops
      ensures Valid() && Enumerates(visit, Doomed(old(State()), minAge, now))
      ensures State() == Prune(old(State()), visit)
      ensures OnlySends(old(ops), ops)
      ensures old(Kept()) ==> Kept()
    {
      var remove := CollectPrunable(minAge, now);
      visit := remove;
      StepKeepsBook(cfg, Sys(State(), multiset{}, map[]), CmdPrune(minAge, now, visit));
      PruneNone(State());
      for i := 0 to |remove|
        invariant Valid() && OnlySends(old(ops), ops)
        invariant State() == Prune(old(State()), remove[..i])
      {
        PruneOneMore(old(State()), remove, i);
        peers := peers - {remove[i]};
        Notify(NewInfo(remove[i]));
      }
      assert remove[..|remove|] == remove;
    }

    static lemma PruneNone(b: Book)
      ensures Prune(b, []) == b
    {}

    static lemma PruneOneMore(b: Book, order: seq<PeerId>, i: nat)
      requires i < |order|
      ensures var before := Prune(b, order[..i]);
        Prune(b, order[..i + 1]) == Books.Notify(before.(peers := before.peers - {order[i]}), NewInfo(order[i]))
    {
      assert order[..i + 1] == order[..i] + [order[i]];
      assert NewInfos(order[..i + 1]) == NewInfos(order[..i]) + [NewInfo(order[i])];
      assert b.log + NewInfos(order[..i + 1]) == b.log + NewInfos(order[..i]) + [NewInfo(order[i])];
    }

    // ---------- swarm events ----------

    /** Files a connection, in place of another one if that is given. */
    method Connect(p: PeerId, gone: Option<Multiaddr>, address: Multiaddr, direction: Direction, now: int)
      modifies this`peers
      ensures var info := PeerOf(old(State()), p);
        var left := if gone.Some? then info.connections - {gone.value} else info.connections;
        peers == old(peers)[p := info.(connections := left[address := (now, direction)])]
    {
      var info := Entry(p);
      if gone.Some? {
        info.connections := info.connections - {gone.value};
      }
      info.connections := info.connections[address := (now, direction)];
      peers := peers[p := info.Value()];
    }

    /** Drops a connection and records why it ended. */
    method Disconnect(p: PeerId, addr: Multiaddr, kind: FailureKind, now: int)
      modifies this`peers
      ensures var info := PeerOf(old(State()), p);
        peers == old(peers)[p := WithFailure(info.(connections := info.connections - {addr}), addr,
                                             Failure(kind, WithoutPeer(addr), now), false)]
    {
      var info := Entry(p);
      info.connections := info.connections - {addr};
      info.PushFailure(addr, Failure(kind, WithoutPeer(addr), now), false);
      peers := peers[p := info.Value()];
    }

    method ConnectionEstablished(p: PeerId, cp: Endpoint, others: nat, now: int)
      requires Valid()
      modifies this`peers, this`actions, this`eventStream, this`ops
      ensures Valid() && State() == Established(cfg, old(State()), p, cp, others, now)
      ensures OnlySends(old(ops), ops)
      ensures old(Kept()) && p != cfg.local ==> Kept()
    {
      if p != cfg.local {
        OpeningKeepsBook(cfg, State(), p, cp, others, now);
      }
      var conn := NormalizeEndpoint(cp, cfg.local, p);
      var address := RemoteAddress(conn);
      var src := if conn.Dialer? then AddressSource.Dial else Incoming;
      AddAddress(p, address, src, now);
      Connect(p, None, address, DirectionOf(conn), now);
      NotifyAll((if others == 0 then [Connected(p)] else []) + [Event.ConnectionEstablished(p, conn)]);
    }

    method AddressChange(p: PeerId, before: Endpoint, after: Endpoint, now: int)
      requires Valid()
      modifies this`peers, this`actions, this`eventStream, this`ops
      ensures Valid() && State() == ChangeAddress(cfg, old(State()), p, before, after, now)
      ensures OnlySends(old(ops), ops)
      ensures old(Kept()) && p != cfg.local ==> Kept()
    {
      if p != cfg.local {
        MovingKeepsBook(cfg, State(), p, before, after, now);
      }
      var old', new' := NormalizeEndpoint(before, cfg.local, p), NormalizeEndpoint(after, cfg.local, p);
      var oldAddr, newAddr := RemoteAddress(old'), RemoteAddress(new');
      var src := if new'.Dialer? then AddressSource.Dial else Incoming;
      AddAddress(p, newAddr, src, now);
      Connect(p, Some(oldAddr), newAddr, DirectionOf(new'), now);
      Notify(AddressChanged(p, old', new'));
    }

    method ConnectionClosed(p: PeerId, cp: Endpoint, left: nat, theirs: bool, now: int)
      requires Valid()
      modifies this`peers, this`eventStream, this`ops
      ensures Valid() && State() == CloseConnection(cfg, old(State()), p, cp, left, theirs, now)
      ensures OnlySends(old(ops), ops)
      ensures old(Kept()) && p != cfg.local ==> Kept()
    {
      if p != cfg.local {
        ClosingKeepsBook(cfg, State(), p, cp, left, theirs, now);
      }
      var conn := NormalizeEndpoint(cp, cfg.local, p);
      var addr := RemoteAddress(conn);
      Disconnect(p, addr, if theirs then PeerDisconnected else WeDisconnected, now);
      NotifyAll([Event.ConnectionClosed(p, conn)] + (if left == 0 then [Disconnected(p)] else []) + [NewInfo(p)]);
    }

    method SetRtt(p: PeerId, rtt: Option<nat>)
      requires Valid()
      modifies this`peers, this`eventStream, this`ops
      ensures Valid() && State() == RecordRtt(old(State()), p, rtt)
      ensures OnlySends(old(ops), ops)
      ensures old(Kept()) ==> Kept()
    {
      StepKeepsBook(cfg, Sys(State(), multiset{}, map[]), GotPing(p, rtt));
      if p in peers {
        var info := Entry(p);
        info.SetRtt(rtt);
        peers := peers[p := info.Value()];
        Notify(NewInfo(p));
      }
    }

    method NewListenAddr(id: int, a: Multiaddr)
      requires Valid()
      modifies this`listeners, this`eventStream, this`ops
      ensures Valid() && State() == AddListenAddr(old(State()), id, a)
      ensures OnlySends(old(ops), ops)
      ensures old(Kept()) ==> Kept()
    {
      StepKeepsBook(cfg, Sys(State(), multiset{}, map[]), ListenAddr(id, a));
      listeners := listeners + {a};
      Notify(Event.NewListenAddr(id, a));
    }

    method ExpiredListenAddr(id: int, a: Multiaddr)
      requires Valid()
      modifies this`listeners, this`eventStream, this`ops
      ensures Valid() && State() == ExpireListenAddr(old(State()), id, a)
      ensures OnlySends(old(ops), ops)
      ensures old(Kept()) ==> Kept()
    {
      StepKeepsBook(cfg, Sys(State(), multiset{}, map[]), ListenExpired(id, a));
      listeners := listeners - {a};
      Notify(Event.ExpiredListenAddr(id, a));
    }

    /** Hands out the next dial: queued ones in order, then any deferred one whose timer has fired. */
    method Poll(fired: bool) returns (next: Option<Dialling>)
      requires Valid()
      modifies this`actions, this`deferred
      ensures Valid()
      ensures if old(actions) != [] then
          next == Some(old(actions)[0]) && State() == old(State()).(actions := old(actions)[1..])
        else if fired && old(deferred) != multiset{} then
          next.Some? && next.value in old(deferred)
          && State() == old(State()).(deferred := old(deferred) - multiset{next.value})
        else next == None && State() == old(State())
      ensures old(Kept()) ==> Kept()
    {
      if actions != [] {
        StepKeepsBook(cfg, Sys(State(), multiset{}, map[]), TakeAction);
        next := Some(actions[0]);
        actions := actions[1..];
      } else if deferred != multiset{} && fired {
        var d :| d in deferred;
        StepKeepsBook(cfg, Sys(State(), multiset{}, map[]), TakeDeferred(d));
        next := Some(d);
        deferred := deferred - multiset{d};
      } else {
        next := None;
      }
    }

    // ---------- identify ----------

    /** Advertised address and port of every listener we are not connected to. */
    static method CollectPorts(listeners: seq<Multiaddr>, conns: set<Multiaddr>, p: PeerId)
      returns (ports: seq<(Proto, int)>)
      ensures forall x :: x in ports <==>
        exists a :: a in listeners && Normalize(a, p) !in conns && IpPort(a) == Some(x)
    {
      ports := [];
      for i := 0 to |listeners|
        invariant forall x :: x in ports <==>
          exists j :: 0 <= j < i && Normalize(listeners[j], p) !in conns && IpPort(listeners[j]) == Some(x)
      {
        if Normalize(listeners[i], p) !in conns && IpPort(listeners[i]).Some? {
          ports := ports + [IpPort(listeners[i]).value];
        }
      }
    }

    /** The guesses for one incoming address, collected port by port. */
    static method Guess(a: Multiaddr, ports: seq<(Proto, int)>) returns (found: set<Multiaddr>)
      ensures found == Guesses(a, set x | x in ports)
    {
      if IpPort(a).None? {
        return {};
      }
      var ip := IpPort(a).value.0;
      ghost var all := set x | x in ports;
      ghost var same := set x | x in all && x.0 == ip :: x.1;
      found := {};
      var added := false;
      for i := 0 to |ports|
        invariant forall g :: g in found <==>
          exists j :: 0 <= j < i && ports[j].0 == ip && g == ReplacePort(a, ports[j].1).value
        invariant added <==> exists j :: 0 <= j < i && ports[j].0 == ip
      {
        if ports[i].0 == ip {
          found := found + {ReplacePort(a, ports[i].1).value};
          added := true;
        }
      }
      if added {
        GuessSame(a, ip, ports, found);
        return;
      }
      assert found == {};
      for i := 0 to |ports|
        invariant forall g :: g in found <==> exists j :: 0 <= j < i && g == ReplacePort(a, ports[j].1).value
        invariant added <==> i > 0
      {
        found := found + {ReplacePort(a, ports[i].1).value};
        added := true;
      }
      if !added {
        found := {a};
      }
      GuessAny(a, ip, ports, found);
    }

    static lemma GuessSame(a: Multiaddr, ip: Proto, ports: seq<(Proto, int)>, found: set<Multiaddr>)
      requires IpPort(a).Some? && IpPort(a).value.0 == ip
      requires exists j :: 0 <= j < |ports| && ports[j].0 == ip
      requires forall g :: g in found <==>
        exists j :: 0 <= j < |ports| && ports[j].0 == ip && g == ReplacePort(a, ports[j].1).value
      ensures found == Guesses(a, set x | x in ports)
    {
      var all := set x | x in ports;
      var j :| 0 <= j < |ports| && ports[j].0 == ip;
      assert ports[j] in all;
      var qs := PortsFor(ip, all);
      var same := set x | x in all && x.0 == ip :: x.1;
      assert ports[j].1 in same;
      assert qs == same;
      forall q | q in qs ensures ReplacePort(a, q).value in found {
        var x :| x in all && x.0 == ip && x.1 == q;
        var k :| 0 <= k < |ports| && ports[k] == x;
      }
      forall g | g in found ensures g in Guesses(a, all) {
        var k :| 0 <= k < |ports| && ports[k].0 == ip && g == ReplacePort(a, ports[k].1).value;
        assert ports[k] in all;
        assert ports[k].1 in qs;
      }
    }

    static lemma GuessAny(a: Multiaddr, ip: Proto, ports: seq<(Proto, int)>, found: set<Multiaddr>)
      requires IpPort(a).Some? && IpPort(a).value.0 == ip
      requires forall j :: 0 <= j < |ports| ==> ports[j].0 != ip
      requires if ports == [] then found == {a}
               else forall g :: g in found <==> exists j :: 0 <= j < |ports| && g == ReplacePort(a, ports[j].1).value
      ensures found == Guesses(a, set x | x in ports)
    {
      var all := set x | x in ports;
      var qs := PortsFor(ip, all);
      assert forall x :: x in all ==> x.0 != ip;
      assert qs == set x | x in all :: x.1;
      if ports == [] {
        assert qs == {};
      } else {
        assert ports[0] in all;
        assert ports[0].1 in qs;
        forall q | q in qs ensures ReplacePort(a, q).value in found {
          var x :| x in all && x.1 == q;
        }
        forall g | g in found ensures g in Guesses(a, all) {
          var k :| 0 <= k < |ports| && g == ReplacePort(a, ports[k].1).value;
          assert ports[k] in all;
          assert ports[k].1 in qs;
        }
      }
    }

    /** Translates every incoming address of the table, visited in any order. */
    static method Translate(t: Table, ports: seq<(Proto, int)>) returns (translated: set<Multiaddr>)
      ensures forall g :: g in translated <==>
        exists a :: a in IncomingAddresses(t) && g in Guesses(a, set x | x in ports)
    {
      translated := {};
      var todo := set a | a in t && t[a].source.IsToTranslate();
      ghost var done := {};
      while todo != {}
        invariant todo !! done && todo + done == IncomingAddresses(t)
        invariant forall g :: g in translated <==> exists a :: a in done && g in Guesses(a, set x | x in ports)
        decreases todo
      {
        var a :| a in todo;
        var found := Guess(a, ports);
        translated := translated + found;
        todo, done := todo - {a}, done + {a};
      }
    }

    /** The advertised listeners in scope, normalised. */
    method CollectAdvertised(listeners: seq<Multiaddr>, p: PeerId) returns (found: set<Multiaddr>)
      ensures found == set a | a in listeners && (cfg.enableLoopback || !IsLoopback(a)) :: Normalize(a, p)
    {
      found := {};
      for i := 0 to |listeners|
        invariant found == set a | a in listeners[..i] && (cfg.enableLoopback || !IsLoopback(a)) :: Normalize(a, p)
      {
        assert listeners[..i + 1] == listeners[..i] + [listeners[i]];
        if cfg.enableLoopback || !IsLoopback(listeners[i]) {
          found := found + {Normalize(listeners[i], p)};
        }
      }
      assert listeners[..|listeners|] == listeners;
    }

    static lemma AdoptOneDials(cfg: Config, own: set<Multiaddr>, conns: set<Multiaddr>, p: PeerId, acc: Adopted,
                               a: Multiaddr, now: int)
      ensures var r, s := AdoptOne(cfg, own, conns, p, acc, a, now),
        AdoptOne(cfg, own, conns, p, Adopted(acc.table, []), a, now);
        r.table == s.table && r.dials == acc.dials + s.dials
    {}

    /** Takes up the suggested addresses in any order, which is returned. */
    method AdoptAll(info: PeerInfo, p: PeerId, suggested: set<Multiaddr>, now: int)
      returns (ghost order: seq<Multiaddr>)
      modifies this`actions, info`addresses
      ensures Enumerates(order, suggested)
      ensures var r := Adopt(cfg, listeners, info.connections.Keys, p, old(info.addresses), order, now);
        info.addresses == r.table && actions == old(actions) + r.dials
    {
      order := [];
      var todo := suggested;
      while todo != {}
        invariant todo <= suggested
        invariant forall a :: a in order <==> a in suggested && a !in todo
        invariant forall i, j :: 0 <= i < j < |order| ==> order[i] != order[j]
        invariant var r := Adopt(cfg, listeners, info.connections.Keys, p, old(info.addresses), order, now);
          info.addresses == r.table && actions == old(actions) + r.dials
        decreases todo
      {
        var addr :| addr in todo;
        todo := todo - {addr};
        ghost var before, acc := order,
          Adopt(cfg, listeners, info.connections.Keys, p, old(info.addresses), order, now);
        order := order + [addr];
        assert order[..|order| - 1] == before;
        AdoptOneDials(cfg, listeners, info.connections.Keys, p, acc, addr, now);
        AdoptAddress(info, p, addr, now);
      }
    }

    /** Takes up one suggested address. */
    method AdoptAddress(info: PeerInfo, p: PeerId, addr: Multiaddr, now: int)
      modifies this`actions, info`addresses
      ensures var r := AdoptOne(cfg, listeners, info.connections.Keys, p, Adopted(old(info.addresses), []), addr, now);
        info.addresses == r.table && actions == old(actions) + r.dials
    {
      var tcp := Pop(addr);
      if tcp in listeners {
        return;
      }
      var probe := info.IngestAddress(addr, Listen, now);
      if probe {
        if cfg.portReuse && addr in info.connections {
          var _ := info.IngestAddress(addr, Candidate, now);
        } else {
          actions := actions + [Dialling(p, true, [tcp], Handler(Some(Probe(addr, IDENTIFY_RETRIES)), false))];
        }
      }
    }

    method SetInfo(p: PeerId, ident: Identify, now: int) returns (ghost order: seq<Multiaddr>)
      requires Valid()
      modifies this`peers, this`actions, this`eventStream, this`ops
      ensures Valid() && OnlySends(old(ops), ops)
      ensures p in old(peers) ==> Enumerates(order, Suggested(cfg, Identified(old(peers[p]), ident), p))
      ensures State() == Books.SetInfo(cfg, old(State()), p, ident, order, now)
      ensures old(Kept()) ==> Kept()
    {
      order := [];
      if p !in peers {
        return;
      }
      var info := Entry(p);
      order := Absorb(info, p, ident, now);
      peers := peers[p := info.Value()];
      Notify(NewInfo(p));
      StepKeepsBook(cfg, Sys(old(State()), multiset{}, map[]), GotIdentify(p, ident, order, now));
    }

    /** Works an Identify message into a borrowed record. */
    method Absorb(info: PeerInfo, p: PeerId, ident: Identify, now: int) returns (ghost order: seq<Multiaddr>)
      modifies this`actions, info
      ensures info.rtt == old(info.rtt)
      ensures Enumerates(order, Suggested(cfg, Identified(old(info.Value()), ident), p))
      ensures var v := Identified(old(info.Value()), ident);
        var r := Adopt(cfg, listeners, v.connections.Keys, p, DropIncoming(v.addresses), order, now);
        info.Value() == v.(addresses := r.table) && actions == old(actions) + r.dials
    {
      info.protocolVersion, info.agentVersion := Some(ident.protocolVersion), Some(ident.agentVersion);
      info.protocols, info.listeners := ident.protocols, ident.listenAddrs;
      assert info.Value() == Identified(old(info.Value()), ident);
      var suggested := Suggest(info, p);
      order := AdoptAll(info, p, suggested, now);
    }

    /** Collects what the Identify suggests and forgets the incoming addresses. */
    method Suggest(info: PeerInfo, p: PeerId) returns (suggested: set<Multiaddr>)
      modifies info`addresses
      ensures suggested == Suggested(cfg, old(info.Value()), p)
      ensures info.addresses == DropIncoming(old(info.addresses))
    {
      ghost var v := info.Value();
      var ports := CollectPorts(info.listeners, info.connections.Keys, p);
      var translated := Translate(info.addresses, ports);
      info.addresses := map a | a in info.addresses && !info.addresses[a].source.IsToTranslate() :: info.addresses[a];
      var advertised := CollectAdvertised(info.listeners, p);
      SuggestionsCollected(v, p, ports, translated);
      suggested := translated + advertised;
    }

    static lemma SuggestionsCollected(v: Info, p: PeerId, ports: seq<(Proto, int)>, translated: set<Multiaddr>)
      requires forall x :: x in ports <==>
        exists a :: a in v.listeners && Normalize(a, p) !in v.connections.Keys && IpPort(a) == Some(x)
      requires forall g :: g in translated <==>
        exists a :: a in IncomingAddresses(v.addresses) && g in Guesses(a, set x | x in ports)
      ensures translated == Translated(v, p)
    {
      assert (set x | x in ports) == ListenPorts(v, p);
    }

    // ---------- dial failures ----------

    method DialFailed(h: Handler, peer: Option<PeerId>, err: DialFault, now: int)
      requires Valid()
      modifies this`peers, this`deferred, this`eventStream, this`ops
      ensures Valid() && OnlySends(old(ops), ops)
      ensures State() == FailDial(cfg, old(State()), h, peer, err, now)
      ensures old(Kept()) && (h.own.Some? ==> h.own.value.retries <= SIM_OPEN_RETRIES + 1) ==> Kept()
    {
      if h.own.Some? ==> h.own.value.retries <= SIM_OPEN_RETRIES + 1 {
        FailureKeepsBook(cfg, State(), h, peer, err, now);
      }
      var who := HandlerPeer(h);
      if who.None? {
        who := peer;
      }
      if who.None? || who.value !in peers {
        return;
      }
      var p := who.value;
      if h.own.Some? {
        ProbeDialFailed(p, h.own.value, h.keepAlive, err, now);
      } else if err.Transport? {
        TransportDialFailed(p, err.errors, now);
      } else if err.ConditionFalse? {
      } else if !(err.Banned? || err.LocalPeerId?) {
        Notify(Unreachable(p));
      }
    }

    method ProbeDialFailed(p: PeerId, probe: Probe, keepAlive: bool, err: DialFault, now: int)
      requires Valid() && p in peers
      modifies this`peers, this`deferred, this`eventStream, this`ops
      ensures Valid() && OnlySends(old(ops), ops)
      ensures State() == ProbeFailed(old(State()), p, probe, keepAlive, err, now)
    {
      var addr, retries := probe.addr, probe.retries;
      var probeResult := err.Transport? || err.WrongPeerId? || err.ConnectionIo?;
      var simOpen := false;
      if err.Transport? {
        var i := 0;
        while i < |err.errors| && !simOpen
          invariant 0 <= i <= |err.errors|
          invariant simOpen <==> exists j :: 0 <= j < i && err.errors[j].1
        {
          simOpen := err.errors[i].1;
          i := i + 1;
        }
      }
      assert simOpen == SimOpen(err);
      var info := Entry(p);
      info.PushFailure(addr, Failure(FailureKind.DialError, WithoutPeer(WithoutPeer(addr)), now), probeResult);
      if err.WrongPeerId? {
        info.addresses := info.addresses - {addr};
      }
      peers := peers[p := info.Value()];
      if simOpen && retries > 0 {
        deferred := deferred + multiset{Dialling(p, false, [addr], Handler(Some(Probe(addr, retries - 1)), keepAlive))};
      }
      NotifyAll([DialFailure(p, addr), NewInfo(p)]);
    }

    method TransportDialFailed(p: PeerId, errors: seq<(Multiaddr, bool)>, now: int)
      requires Valid() && p in peers
      modifies this`peers, this`deferred, this`eventStream, this`ops
      ensures Valid() && OnlySends(old(ops), ops)
      ensures State() == TransportFailed(cfg, old(State()), p, errors, now)
    {
      var info := Entry(p);
      var events, redials := ChargeFailures(info, p, errors, now);
      peers := peers[p := info.Value()];
      deferred := deferred + multiset(redials);
      NotifyAll(events + (if redials == [] then [Unreachable(p)] else []) + [NewInfo(p)]);
    }

    static lemma ChargeStep(cfg: Config, v: Info, p: PeerId, errors: seq<(Multiaddr, bool)>, i: nat, now: int)
      requires i < |errors|
      ensures var a := errors[i].0;
        && WithTransportFailures(v, p, errors[..i + 1], now)
           == WithFailure(WithTransportFailures(v, p, errors[..i], now), Normalize(a, p), DialRecord(a, now), true)
        && DialFailures(p, errors[..i + 1]) == DialFailures(p, errors[..i]) + [DialFailure(p, a)]
        && Redials(cfg, p, errors[..i + 1])
           == Redials(cfg, p, errors[..i])
             + (if errors[i].1 then [Redial(p, a, SIM_OPEN_RETRIES, cfg.keepAlive)] else [])
    {
      assert errors[..i + 1][..i] == errors[..i];
    }

    method ChargeFailures(info: PeerInfo, p: PeerId, errors: seq<(Multiaddr, bool)>, now: int)
      returns (events: seq<Event>, redials: seq<Dialling>)
      modifies info`addresses, info`failures
      ensures info.Value() == WithTransportFailures(old(info.Value()), p, errors, now)
      ensures events == DialFailures(p, errors) && redials == Redials(cfg, p, errors)
    {
      events, redials := [], [];
      for i := 0 to |errors|
        invariant info.Value() == WithTransportFailures(old(info.Value()), p, errors[..i], now)
        invariant events == DialFailures(p, errors[..i]) && redials == Redials(cfg, p, errors[..i])
      {
        ChargeStep(cfg, old(info.Value()), p, errors, i, now);
        var addr, simOpen := errors[i].0, errors[i].1;
        info.PushFailure(Normalize(addr, p), Failure(FailureKind.DialError, WithoutPeer(WithoutPeer(addr)), now), true);
        if simOpen {
          redials := redials + [Dialling(p, false, [addr],
            Handler(Some(Probe(addr, SIM_OPEN_RETRIES)), cfg.keepAlive))];
        }
        events := events + [DialFailure(p, addr)];
      }
      assert errors[..|errors|] == errors;
    }
  }
}
