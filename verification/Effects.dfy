/** What the handlers of the address book do, in terms of components, fields and counts. */
module Effects {
  import opened Options
  import opened Multiaddrs
  import opened PeerInfos
  import opened Books
  import opened Translation
  import opened Swarms

  // ---------- offers ----------

  /** Of ourselves, out of scope, or one of our own listeners. */
  predicate Refused(cfg: Config, b: Book, p: PeerId, a: Multiaddr) {
    p == cfg.local || (!cfg.enableLoopback && IsLoopback(a)) || WithoutPeer(a) in b.listeners
  }

  /** An offer leaves the book as it is if and only if it is refused. */
  lemma OfferRefusedIff(cfg: Config, b: Book, p: PeerId, a: Multiaddr, src: AddressSource, now: int)
    ensures AddAddress(cfg, b, p, a, src, now) == b <==> Refused(cfg, b, p, a)
  {
    var b' := AddAddress(cfg, b, p, a, src, now);
    if !Refused(cfg, b, p, a) {
      assert |b'.log| > |b.log|;
    }
  }

  /**
   An accepted offer files the address with the better source and the time of the offer, and
   touches no other entry.
   */
  lemma OfferFiles(cfg: Config, b: Book, p: PeerId, a: Multiaddr, src: AddressSource, now: int, x: Multiaddr)
    requires !Refused(cfg, b, p, a)
    ensures var b' := AddAddress(cfg, b, p, a, src, now);
      && p in b'.peers && b'.listeners == b.listeners && b'.deferred == b.deferred
      && b'.peers[p] == PeerOf(b, p).(addresses := b'.peers[p].addresses)
      && var t, t' := PeerOf(b, p).addresses, b'.peers[p].addresses;
         if x == Normalize(a, p) then
           && x in t' && t'[x].time == now
           && t'[x].source == if x in t && src.Rank() <= t[x].source.Rank() then t[x].source else src
         else (x in t' <==> x in t) && (x in t ==> t'[x] == t[x])
  {}

  /**
   An offer queues a dial exactly when it is accepted, raises the source of its address to one that
   is to be probed, and no connection holds the address.  The dial names the bare address, carries
   the full one with a budget of eleven, and is made even when connected.
   */
  lemma OfferDials(cfg: Config, b: Book, p: PeerId, a: Multiaddr, src: AddressSource, now: int)
    ensures var i, x := PeerOf(b, p), Normalize(a, p);
      var asks :=
        && !Refused(cfg, b, p, a)
        && (x in i.addresses ==> i.addresses[x].source.Rank() < src.Rank())
        && (src.Listen? || src.Kad? || src.Mdns? || src.Candidate?)
        && x !in i.connections;
      AddAddress(cfg, b, p, a, src, now).actions
      == b.actions + if asks then [Dialling(p, true, [WithoutPeer(a)], Handler(Some(Probe(x, 11)), false))] else []
  {
    assert Normalize(a, p)[..|Normalize(a, p)| - 1] == WithoutPeer(a);
    assert b.actions + [] == b.actions;
  }

  // ---------- commands ----------

  /** Dialling a peer asks for one dial without an address of its own, unless it is ourselves. */
  lemma DialAsks(cfg: Config, b: Book, p: PeerId)
    ensures var b' := DialPeer(cfg, b, p);
      && b' == b.(actions := b'.actions)
      && if p == cfg.local then b'.actions == b.actions
         else
           && |b'.actions| == |b.actions| + 1 && b.actions <= b'.actions
           && var d := b'.actions[|b.actions|];
              && d.peer == p && !d.always && d.addresses == []
              && d.handler.own == None && d.handler.keepAlive == cfg.keepAlive
  {}

  /**
   Dialling an address makes the peer known, and asks for one dial of that address with a budget of
   eleven, unless it is ourselves or a connection holds the address.
   */
  lemma DialAddressAsks(cfg: Config, b: Book, p: PeerId, a: Multiaddr)
    ensures var b' := DialAddress(cfg, b, p, a);
      && b' == b.(actions := b'.actions, peers := b'.peers)
      && b'.peers.Keys == b.peers.Keys + (if p == cfg.local then {} else {p})
      && (forall q :: q in b'.peers ==> b'.peers[q] == PeerOf(b, q))
      && if p == cfg.local || Normalize(a, p) in PeerOf(b, p).connections then b'.actions == b.actions
         else
           && |b'.actions| == |b.actions| + 1 && b.actions <= b'.actions
           && var d := b'.actions[|b.actions|];
              && d.peer == p && !d.always && d.addresses == [a] && d.handler.keepAlive == cfg.keepAlive
              && d.handler.own.Some? && d.handler.own.value == Probe(Normalize(a, p), 11)
  {}

  // ---------- failed dials ----------

  /** The peer a failure is charged to: the one its own address names, else the one the swarm names. */
  predicate ChargedTo(h: Handler, peer: Option<PeerId>, p: PeerId) {
    if h.own.Some? && AddrPeer(h.own.value.addr).Some? then AddrPeer(h.own.value.addr) == Some(p) else peer == Some(p)
  }

  predicate SomeSimOpen(err: DialFault) {
    err.Transport? && exists i :: 0 <= i < |err.errors| && err.errors[i].1
  }

  /**
   A failed dial of an address is repeated, with one retry less and the same keep-alive, if and only
   if some transport error looks like a simultaneous open and there are retries left.
   */
  lemma ProbeRedialledIff(cfg: Config, b: Book, h: Handler, peer: Option<PeerId>, err: DialFault, now: int, p: PeerId)
    requires h.own.Some? && ChargedTo(h, peer, p) && p in b.peers
    ensures var b', a, n := FailDial(cfg, b, h, peer, err, now), h.own.value.addr, h.own.value.retries;
      && b'.actions == b.actions && b'.listeners == b.listeners && b'.peers.Keys == b.peers.Keys
      && (forall q :: q in b.peers && q != p ==> b'.peers[q] == b.peers[q])
      && b'.deferred
         == b.deferred + if SomeSimOpen(err) && n > 0
                         then multiset{Dialling(p, false, [a], Handler(Some(Probe(a, n - 1)), h.keepAlive))}
                         else multiset{}
  {
    assert FailDial(cfg, b, h, peer, err, now) == ProbeFailed(b, p, h.own.value, h.keepAlive, err, now);
    assert b.deferred + multiset{} == b.deferred;
  }

  /**
   It puts a dial error with the bare address at the front of the failures.  It takes its address out
   of the table exactly when a wrong peer answered, or when a transport or connection error hits an
   address that is still to be probed.
   */
  lemma ProbeFailureRecorded(cfg: Config, b: Book, h: Handler, peer: Option<PeerId>, err: DialFault, now: int,
                             p: PeerId, x: Multiaddr)
    requires h.own.Some? && ChargedTo(h, peer, p) && p in b.peers
    ensures var i, i', a := b.peers[p], FailDial(cfg, b, h, peer, err, now).peers[p], h.own.value.addr;
      && i' == i.(addresses := i'.addresses, failures := i'.failures)
      && i'.failures
         == [Failure(FailureKind.DialError, WithoutPeer(WithoutPeer(a)), now)]
            + (if |i.failures| < 10 then i.failures else i.failures[..|i.failures| - 1])
      && (x in i'.addresses <==>
          x in i.addresses
          && !(x == a && (err.WrongPeerId?
                          || ((err.Transport? || err.ConnectionIo?) && i.addresses[x].source.IsToProbe()))))
      && (x in i'.addresses ==> i'.addresses[x] == i.addresses[x])
  {
    var r := Report(h.own.value.addr, Failure(FailureKind.DialError, WithoutPeer(WithoutPeer(h.own.value.addr)), now),
                    err.Transport? || err.WrongPeerId? || err.ConnectionIo?);
    assert FailDial(cfg, b, h, peer, err, now) == ProbeFailed(b, p, h.own.value, h.keepAlive, err, now);
    ReportRemovesIff(b.peers[p], r, x);
  }

  /** How often a transport error asks for the dial r. */
  function TimesAsked(cfg: Config, p: PeerId, errors: seq<(Multiaddr, bool)>, r: Dialling): nat {
    if errors == [] then 0
    else
      var (a, simOpen) := errors[|errors| - 1];
      TimesAsked(cfg, p, errors[..|errors| - 1], r)
      + if simOpen && r == Dialling(p, false, [a], Handler(Some(Probe(a, 10)), cfg.keepAlive)) then 1 else 0
  }

  lemma {:induction false} RedialsCounted(cfg: Config, p: PeerId, errors: seq<(Multiaddr, bool)>, r: Dialling)
    ensures multiset(Redials(cfg, p, errors))[r] == TimesAsked(cfg, p, errors, r)
  {
    if errors == [] {
    } else {
      var n := |errors| - 1;
      RedialsCounted(cfg, p, errors[..n], r);
      if errors[n].1 {
        var d := Dialling(p, false, [errors[n].0], Handler(Some(Probe(errors[n].0, 10)), cfg.keepAlive));
        assert multiset(Redials(cfg, p, errors)) == multiset(Redials(cfg, p, errors[..n])) + multiset{d};
      } else {
        assert Redials(cfg, p, errors) == Redials(cfg, p, errors[..n]);
      }
    }
  }

  /** What a transport error reports, address by address. */
  function Reports(p: PeerId, errors: seq<(Multiaddr, bool)>, now: int): seq<Report> {
    seq(|errors|, i requires 0 <= i < |errors| =>
      Report(Normalize(errors[i].0, p),
             Failure(FailureKind.DialError, WithoutPeer(WithoutPeer(errors[i].0)), now), true))
  }

  lemma {:induction false} TransportReports(i: Info, p: PeerId, errors: seq<(Multiaddr, bool)>, now: int)
    ensures WithTransportFailures(i, p, errors, now) == RecordAll(i, Reports(p, errors, now))
  {
    if errors == [] {
    } else {
      TransportReports(i, p, errors[..|errors| - 1], now);
      assert Reports(p, errors, now)[..|errors| - 1] == Reports(p, errors[..|errors| - 1], now);
    }
  }

  /**
   A failed dial of a peer is followed by one dial with ten retries for each simultaneous open, and
   each of its errors is reported as the result of a probe, in order.
   */
  lemma PlainRedialled(cfg: Config, b: Book, h: Handler, peer: Option<PeerId>, errors: seq<(Multiaddr, bool)>, now: int,
                       p: PeerId, r: Dialling)
    requires h.own.None? && peer == Some(p) && p in b.peers
    ensures var b' := FailDial(cfg, b, h, peer, Transport(errors), now);
      && b'.actions == b.actions && b'.listeners == b.listeners
      && b'.deferred[r] == b.deferred[r] + TimesAsked(cfg, p, errors, r)
      && b'.peers == b.peers[p := RecordAll(b.peers[p], Reports(p, errors, now))]
  {
    RedialsCounted(cfg, p, errors, r);
    TransportReports(b.peers[p], p, errors, now);
  }

  /**
   A failure changes nothing but the log if it is charged to nobody we know or is no transport
   error of a peer's dial.
   */
  lemma OtherFailuresIgnored(cfg: Config, b: Book, h: Handler, peer: Option<PeerId>, err: DialFault, now: int)
    requires (forall p :: ChargedTo(h, peer, p) ==> p !in b.peers) || (h.own.None? && !err.Transport?)
    ensures var b' := FailDial(cfg, b, h, peer, err, now); b' == b.(log := b'.log)
  {
    var who := if HandlerPeer(h).Some? then HandlerPeer(h) else peer;
    if who.Some? {
      assert ChargedTo(h, peer, who.value);
    }
  }

  // ---------- Identify ----------

  predicate IsIp(x: Proto) {
    x.Ip4? || x.Ip6?
  }

  /** Some advertised listener that we are not connected to begins with this IP and this TCP port. */
  ghost predicate Lists(i: Info, p: PeerId, ip: Proto, q: int) {
    IsIp(ip) && exists l :: l in i.listeners && Normalize(l, p) !in i.connections && |l| >= 2 && l[..2] == [ip, Tcp(q)]
  }

  /** The port q is listed for this IP, or for some IP when this one has none. */
  ghost predicate Candidates(i: Info, p: PeerId, ip: Proto, q: int) {
    Lists(i, p, ip, q) || ((forall r :: !Lists(i, p, ip, r)) && exists other :: Lists(i, p, other, q))
  }

  /** g replaces the port of the incoming address a by a candidate, or is a itself when there is none. */
  ghost predicate GuessOf(i: Info, p: PeerId, a: Multiaddr, g: Multiaddr) {
    && |a| >= 2 && IsIp(a[0]) && a[1].Tcp?
    && ((exists q :: Candidates(i, p, a[0], q) && g == [a[0], Tcp(q)] + a[2..])
        || (g == a && forall q :: !Candidates(i, p, a[0], q)))
  }

  lemma PortsExact(i: Info, p: PeerId, ip: Proto, q: int)
    ensures (ip, q) in ListenPorts(i, p) <==> Lists(i, p, ip, q)
  {
    if Lists(i, p, ip, q) {
      var l :| l in i.listeners && Normalize(l, p) !in i.connections && |l| >= 2 && l[..2] == [ip, Tcp(q)];
      IpPortExact(l, ip, q);
    }
    if (ip, q) in ListenPorts(i, p) {
      var l :| l in i.listeners && Normalize(l, p) !in i.connections && IpPort(l) == Some((ip, q));
      IpPortExact(l, ip, q);
    }
  }

  lemma CandidatesExact(i: Info, p: PeerId, ip: Proto, q: int)
    ensures q in PortsFor(ip, ListenPorts(i, p)) <==> Candidates(i, p, ip, q)
  {
    var ports := ListenPorts(i, p);
    forall x, r ensures (x, r) in ports <==> Lists(i, p, x, r) {
      PortsExact(i, p, x, r);
    }
    var same := set x | x in ports && x.0 == ip :: x.1;
    forall r ensures r in same <==> Lists(i, p, ip, r) {
      if Lists(i, p, ip, r) {
        assert (ip, r) in ports;
      }
    }
    if same == {} && Candidates(i, p, ip, q) {
      var other :| Lists(i, p, other, q);
      assert (other, q) in ports;
    }
    if same == {} && q in PortsFor(ip, ports) {
      var x :| x in ports && x.1 == q;
      assert Lists(i, p, x.0, q);
    }
  }

  lemma GuessesExact(i: Info, p: PeerId, a: Multiaddr, g: Multiaddr)
    ensures g in Guesses(a, ListenPorts(i, p)) <==> GuessOf(i, p, a, g)
  {
    if |a| >= 2 && IsIp(a[0]) && a[1].Tcp? {
      IpPortExact(a, a[0], a[1].port);
      assert a[..2] == [a[0], a[1]];
      var qs := PortsFor(a[0], ListenPorts(i, p));
      forall q ensures q in qs <==> Candidates(i, p, a[0], q) {
        CandidatesExact(i, p, a[0], q);
      }
      forall q ensures a[1 := Tcp(q)] == [a[0], Tcp(q)] + a[2..] {
      }
      assert forall q :: ReplacePort(a, q) == Some([a[0], Tcp(q)] + a[2..]);
    } else {
      assert IpPort(a) == None;
    }
  }

  /**
   An Identify message suggests exactly the advertised listeners in scope, with their peer, and the
   guesses for the incoming addresses: the same IP of either version and rest, with each port listed
   for that IP, else with each port listed at all, else unchanged.
   */
  lemma SuggestedExact(cfg: Config, i: Info, p: PeerId, g: Multiaddr)
    ensures g in Suggested(cfg, i, p) <==>
      || (exists l :: l in i.listeners && (cfg.enableLoopback || !IsLoopback(l)) && g == Normalize(l, p))
      || (exists a :: a in i.addresses && i.addresses[a].source == Incoming && GuessOf(i, p, a, g))
  {
    if a :| a in i.addresses && i.addresses[a].source == Incoming && GuessOf(i, p, a, g) {
      GuessesExact(i, p, a, g);
      assert a in IncomingAddresses(i.addresses);
    }
    if g in Translated(i, p) {
      var a :| a in IncomingAddresses(i.addresses) && g in Guesses(a, ListenPorts(i, p));
      GuessesExact(i, p, a, g);
    }
  }

  /** The address without its last component, which for a suggestion is its peer. */
  function Bare(a: Multiaddr): Multiaddr {
    if a == [] then [] else a[..|a| - 1]
  }

  /**
   After an Identify message the table holds what it held, but for incoming addresses, and all
   suggestions but our own listeners.
   */
  lemma IdentifyFiles(cfg: Config, b: Book, p: PeerId, ident: Identify, order: seq<Multiaddr>, now: int, x: Multiaddr)
    requires p in b.peers
    requires Enumerates(order, Suggested(cfg, Identified(b.peers[p], ident), p))
    ensures var i, i' := b.peers[p], SetInfo(cfg, b, p, ident, order, now).peers[p];
      var taken := x in Suggested(cfg, i.(listeners := ident.listenAddrs), p) && Bare(x) !in b.listeners;
      && i' == Info(Some(ident.protocolVersion), Some(ident.agentVersion), ident.protocols, ident.listenAddrs,
                    i'.addresses, i.connections, i.failures, i.rtt)
      && (x in i'.addresses <==> taken || (x in i.addresses && i.addresses[x].source != Incoming))
      && (x in i'.addresses && x in i.addresses && i.addresses[x].source != Incoming ==>
          i'.addresses[x] == Entry(i.addresses[x].source, if taken then now else i.addresses[x].time))
      && (x in i'.addresses && !(x in i.addresses && i.addresses[x].source != Incoming) ==>
          i'.addresses[x] == Entry(if cfg.portReuse && x in i.connections then Candidate else Listen, now))
  {
    SetInfoClosedForm(cfg, b, p, ident, order, now);
    DropIncomingFacts(b.peers[p].addresses);
    SameSuggestions(cfg, b.peers[p], ident, p);
  }

  /**
   After an Identify message every incoming address is replaced by the same IP and rest at each port
   listed for that IP, else at each port listed for any IP, else it is kept; only our own listeners
   are left out.
   */
  lemma IdentifyTranslates(cfg: Config, b: Book, p: PeerId, ident: Identify, order: seq<Multiaddr>, now: int,
                           ip: Proto, port: int, rest: Multiaddr, q: int)
    requires p in b.peers && IsIp(ip)
    requires Enumerates(order, Suggested(cfg, Identified(b.peers[p], ident), p))
    requires var a := [ip, Tcp(port)] + rest; a in b.peers[p].addresses && b.peers[p].addresses[a].source == Incoming
    ensures var i := b.peers[p].(listeners := ident.listenAddrs);
      var t := SetInfo(cfg, b, p, ident, order, now).peers[p].addresses;
      var a, g := [ip, Tcp(port)] + rest, [ip, Tcp(q)] + rest;
      && (Lists(i, p, ip, q) ==> g in t || Bare(g) in b.listeners)
      && ((forall r :: !Lists(i, p, ip, r)) && (exists other :: Lists(i, p, other, q)) ==>
          g in t || Bare(g) in b.listeners)
      && ((forall other, r :: !Lists(i, p, other, r)) ==> a in t || Bare(a) in b.listeners)
  {
    var i := b.peers[p].(listeners := ident.listenAddrs);
    var a, g := [ip, Tcp(port)] + rest, [ip, Tcp(q)] + rest;
    assert a[2..] == rest;
    if Candidates(i, p, ip, q) {
      assert GuessOf(i, p, a, g);
      SuggestedExact(cfg, i, p, g);
      IdentifyFiles(cfg, b, p, ident, order, now, g);
    }
    if forall other, r :: !Lists(i, p, other, r) {
      assert GuessOf(i, p, a, a);
      SuggestedExact(cfg, i, p, a);
      IdentifyFiles(cfg, b, p, ident, order, now, a);
    }
  }

  lemma SameSuggestions(cfg: Config, i: Info, ident: Identify, p: PeerId)
    ensures Suggested(cfg, Identified(i, ident), p) == Suggested(cfg, i.(listeners := ident.listenAddrs), p)
  {
    var j, k := Identified(i, ident), i.(listeners := ident.listenAddrs);
    assert ListenPorts(j, p) == ListenPorts(k, p);
    assert Translated(j, p) == Translated(k, p);
    assert Advertised(cfg, j, p) == Advertised(cfg, k, p);
  }

  /**
   It queues one dial for each suggestion that is none of our listeners, is not known better than as
   an incoming address, and is not a connection under port reuse; and no other dial.  Each names the
   bare address, carries the full one with a budget of four, and is made even when connected.
   */
  lemma IdentifyDials(cfg: Config, b: Book, p: PeerId, ident: Identify, order: seq<Multiaddr>, now: int, d: Dialling)
    requires p in b.peers
    requires Enumerates(order, Suggested(cfg, Identified(b.peers[p], ident), p))
    ensures var i, r := b.peers[p], SetInfo(cfg, b, p, ident, order, now);
      && b.actions <= r.actions && r.deferred == b.deferred && r.listeners == b.listeners
      && multiset(r.actions[|b.actions|..])[d]
         == if && d.handler.own.Some?
               && var x := d.handler.own.value.addr;
                  && d == Dialling(p, true, [Bare(x)], Handler(Some(Probe(x, 4)), false))
                  && x in Suggested(cfg, i.(listeners := ident.listenAddrs), p) && Bare(x) !in b.listeners
                  && !(x in i.addresses && i.addresses[x].source != Incoming)
                  && !(cfg.portReuse && x in i.connections)
            then 1 else 0
  {
    SetInfoClosedForm(cfg, b, p, ident, order, now);
    DropIncomingFacts(b.peers[p].addresses);
    SameSuggestions(cfg, b.peers[p], ident, p);
  }

  // ---------- what every step keeps ----------

  /**
   Which peers are known: dialling an address, an accepted offer and connections add one,
   pruning removes its visit.
   */
  lemma KnownPeers(cfg: Config, s: Sys, step: Step)
    requires Possible(cfg, s, step)
    ensures BookAfter(cfg, s, step).peers.Keys == match step
      case CmdDialAddress(p, _) => s.book.peers.Keys + (if p == cfg.local then {} else {p})
      case Offered(p, a, _, _) => s.book.peers.Keys + (if Refused(cfg, s.book, p, a) then {} else {p})
      case Opened(_, _, p, _, _, _) => s.book.peers.Keys + {p}
      case Moved(id, _, _) => s.book.peers.Keys + {s.live[id].peer}
      case Closed(id, _, _, _) => s.book.peers.Keys + {s.live[id].peer}
      case CmdPrune(_, _, visit) => s.book.peers.Keys - (set p | p in visit)
      case _ => s.book.peers.Keys
  {
    match step
    case Failed(d, peer, err, now) => FailDialMoves(cfg, s.book, d.handler, peer, err, now, cfg.local);
    case ForeignFailed(peer, err, now) =>
      FailDialMoves(cfg, s.book, Handler(None, cfg.keepAlive), peer, err, now, cfg.local);
    case _ =>
  }

  /** Our listeners change by listener events only. */
  lemma ListenersStep(cfg: Config, s: Sys, step: Step)
    requires Possible(cfg, s, step)
    ensures BookAfter(cfg, s, step).listeners
         == if step.ListenAddr? then s.book.listeners + {step.a}
            else if step.ListenExpired? then s.book.listeners - {step.a}
            else s.book.listeners
  {}

  /** The address is listened on at the end: it is announced last by a new and not by an expired listen address. */
  predicate Listening(steps: seq<Step>, a: Multiaddr, before: bool) {
    if steps == [] then before
    else
      var last := steps[|steps| - 1];
      if last.ListenAddr? && last.a == a then true
      else if last.ListenExpired? && last.a == a then false
      else Listening(steps[..|steps| - 1], a, before)
  }

  lemma {:induction false} ListeningFirst(steps: seq<Step>, a: Multiaddr, before: bool)
    requires steps != []
    ensures Listening(steps, a, before) == Listening(steps[1..], a, Listening([steps[0]], a, before))
  {
    var n := |steps| - 1;
    if n == 0 {
      assert steps == [steps[0]];
    } else {
      ListeningFirst(steps[..n], a, before);
      assert steps[1..][..n - 1] == steps[..n][1..];
    }
  }

  /** After every run, our listeners are exactly the addresses whose latest listener event is a new one. */
  lemma {:induction false} ListenersFollowEvents(cfg: Config, s: Sys, steps: seq<Step>, a: Multiaddr)
    requires Legal(cfg, s, steps)
    ensures a in After(cfg, s, steps).book.listeners <==> Listening(steps, a, a in s.book.listeners)
    decreases |steps|
  {
    if steps == [] {
    } else {
      ListenersStep(cfg, s, steps[0]);
      assert [steps[0]][..0] == [];
      ListeningFirst(steps, a, a in s.book.listeners);
      ListenersFollowEvents(cfg, Apply(cfg, s, steps[0]), steps[1..], a);
    }
  }

  /**
   The entry of a connection holds when it was filed and whether we dialled; opening and moving
   touch no other entry.
   */
  lemma ConnectionFiled(cfg: Config, b: Book, p: PeerId, before: Endpoint, cp: Endpoint, others: nat, now: int)
    ensures var a := Normalize(if cp.Dialer? then cp.address else cp.sendBackAddr, p);
      var gone := Normalize(if before.Dialer? then before.address else before.sendBackAddr, p);
      var entry := (now, if cp.Dialer? then Outbound else Inbound);
      var i, i' := PeerOf(b, p), PeerOf(Established(cfg, b, p, cp, others, now), p);
      var i'' := PeerOf(ChangeAddress(cfg, b, p, before, cp, now), p);
      && i' == i.(addresses := i'.addresses, connections := i.connections[a := entry])
      && i'' == i.(addresses := i'.addresses, connections := (i.connections - {gone})[a := entry])
  {}

  /** A closed connection loses its entry and puts at the front of the failures who closed it, with the bare address. */
  lemma CloseRecorded(cfg: Config, b: Book, p: PeerId, cp: Endpoint, left: nat, theirs: bool, now: int)
    ensures var i, i' := PeerOf(b, p), PeerOf(CloseConnection(cfg, b, p, cp, left, theirs, now), p);
      var a := Normalize(if cp.Dialer? then cp.address else cp.sendBackAddr, p);
      && i' == i.(connections := i.connections - {a}, failures := i'.failures)
      && i'.failures == [Failure(if theirs then PeerDisconnected else WeDisconnected, WithoutPeer(a), now)]
                        + (if |i.failures| < 10 then i.failures else i.failures[..|i.failures| - 1])
  {
    var i := PeerOf(b, p);
    var a := Normalize(if cp.Dialer? then cp.address else cp.sendBackAddr, p);
    var r := Report(a, Failure(if theirs then PeerDisconnected else WeDisconnected, WithoutPeer(a), now), false);
    assert PeerOf(CloseConnection(cfg, b, p, cp, left, theirs, now), p)
        == WithFailure(i.(connections := i.connections - {a}), r.addr, r.failure, r.probe);
  }

  /** An endpoint is announced with its peers: the remote one on the remote address, ours on the local one. */
  lemma EndpointNormalised(cp: Endpoint, local: PeerId, remote: PeerId)
    ensures match NormalizeEndpoint(cp, local, remote)
      case Dialer(a, role) => cp.Dialer? && a == Normalize(cp.address, remote) && role == cp.roleOverride
      case Listener(l, s) =>
        cp.Listener? && l == Normalize(cp.localAddr, local) && s == Normalize(cp.sendBackAddr, remote)
  {}

  /** Removing an address takes out exactly its normalised form, from a known peer only. */
  lemma RemovalTakes(b: Book, p: PeerId, a: Multiaddr, x: Multiaddr)
    ensures var b' := RemoveAddress(b, p, a);
      && b' == b.(peers := b'.peers) && b'.peers.Keys == b.peers.Keys
      && (forall q :: q in b.peers && q != p ==> b'.peers[q] == b.peers[q])
      && (p in b.peers ==>
          && b'.peers[p] == b.peers[p].(addresses := b'.peers[p].addresses)
          && (x in b'.peers[p].addresses <==> x in b.peers[p].addresses && x != Normalize(a, p))
          && (x in b'.peers[p].addresses ==> b'.peers[p].addresses[x] == b.peers[p].addresses[x]))
  {}

  /** A ping counts for the statistics of a known peer, and for nothing else. */
  lemma PingCounts(b: Book, p: PeerId, ping: Option<nat>)
    ensures var b' := RecordRtt(b, p, ping);
      && b' == b.(peers := b'.peers, log := b'.log)
      && b'.peers == if p in b.peers then b.peers[p := PingAll(b.peers[p], [ping])] else b.peers
  {
    assert [ping][..0] == [];
  }
}
