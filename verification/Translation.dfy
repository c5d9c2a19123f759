/** What processing an Identify message amounts to, whatever order the hash sets are visited in. */
module Translation {
  import opened Multiaddrs
  import opened PeerInfos
  import opened Books

  /** The suggestions that are taken up: all that are not one of our own listeners. */
  function Taken(own: set<Multiaddr>, suggested: set<Multiaddr>): set<Multiaddr> {
    set a | a in suggested && Pop(a) !in own
  }

  /** The table after an Identify, stated without any visiting order. */
  function Settled(cfg: Config, conns: set<Multiaddr>, t: Table, taken: set<Multiaddr>, now: int): Table {
    map a | a in t.Keys + taken ::
      if a !in taken then t[a]
      else if a in t then Entry(t[a].source, now)
      else Entry(if cfg.portReuse && a in conns then Candidate else Listen, now)
  }

  /**
   The addresses an Identify has dialled: the ones new to the table that we are not connected to
   (or cannot reuse).
   */
  function ToDial(cfg: Config, conns: set<Multiaddr>, t: Table, taken: set<Multiaddr>): set<Multiaddr> {
    set a | a in taken && a !in t && !(cfg.portReuse && a in conns)
  }

  /** How often d asks to validate an address of s on behalf of Identify. */
  function Wanted(p: PeerId, s: set<Multiaddr>, d: Dialling): nat {
    if d.handler.own.Some? && d.handler.own.value.addr in s
       && d == ValidationDial(p, d.handler.own.value.addr, IDENTIFY_RETRIES) then 1 else 0
  }

  predicate NoIncoming(t: Table) {
    forall a :: a in t ==> !t[a].source.Incoming?
  }

  lemma DropIncomingFacts(t: Table)
    ensures NoIncoming(DropIncoming(t))
    ensures forall a :: a in DropIncoming(t) <==> a in t && !t[a].source.Incoming?
    ensures forall a :: a in DropIncoming(t) ==> DropIncoming(t)[a] == t[a]
  {}

  /** The entry an address settles at when it is taken up. */
  function SettledEntry(cfg: Config, conns: set<Multiaddr>, t: Table, a: Multiaddr, now: int): Entry {
    Entry(if a in t then t[a].source else if cfg.portReuse && a in conns then Candidate else Listen, now)
  }

  lemma SettledGrows(cfg: Config, conns: set<Multiaddr>, t: Table, before: set<Multiaddr>, a: Multiaddr, now: int)
    requires a !in before
    ensures Settled(cfg, conns, t, before + {a}, now)
         == Settled(cfg, conns, t, before, now)[a := SettledEntry(cfg, conns, t, a, now)]
  {
    var s, s' := Settled(cfg, conns, t, before, now), Settled(cfg, conns, t, before + {a}, now);
    assert s'.Keys == s.Keys + {a};
    assert forall x :: x in s && x != a ==> s'[x] == s[x];
  }

  /** Taking up one more suggestion is one more ingest. */
  lemma SettledStep(cfg: Config, conns: set<Multiaddr>, t: Table, before: set<Multiaddr>, a: Multiaddr, now: int)
    requires NoIncoming(t) && a !in before
    ensures var s := Settled(cfg, conns, t, before, now);
      && (Probes(s, a, Listen) <==> a !in t)
      && Settled(cfg, conns, t, before + {a}, now)
         == if a !in t && cfg.portReuse && a in conns then Ingest(Ingest(s, a, Listen, now), a, Candidate, now)
            else Ingest(s, a, Listen, now)
  {
    SettledGrows(cfg, conns, t, before, a, now);
    assert a in t ==> t[a].source.Rank() >= Listen.Rank();
  }

  ghost predicate Distinct(order: seq<Multiaddr>) {
    forall i, j :: 0 <= i < j < |order| ==> order[i] != order[j]
  }

  lemma TakenStep(own: set<Multiaddr>, order: seq<Multiaddr>)
    requires order != [] && Distinct(order)
    ensures var n := |order| - 1;
      var before := Taken(own, set x | x in order[..n]);
      && Distinct(order[..n])
      && order[n] !in before
      && Taken(own, set x | x in order) == if Pop(order[n]) in own then before else before + {order[n]}
  {
    var n := |order| - 1;
    assert order == order[..n] + [order[n]];
    assert order[n] !in order[..n];
    assert forall x :: x in order <==> x in order[..n] || x == order[n];
  }

  /** Visiting duplicate-free suggestions in any order gives the settled table and each wanted dial exactly once. */
  lemma {:induction false} AdoptClosedForm(cfg: Config, own: set<Multiaddr>, conns: set<Multiaddr>, p: PeerId, t: Table,
                                           order: seq<Multiaddr>, now: int)
    requires NoIncoming(t) && Distinct(order)
    ensures var taken := Taken(own, set a | a in order);
      var r := Adopt(cfg, own, conns, p, t, order, now);
      && r.table == Settled(cfg, conns, t, taken, now)
      && forall d :: multiset(r.dials)[d] == Wanted(p, ToDial(cfg, conns, t, taken), d)
  {
    if order == [] {
      assert Settled(cfg, conns, t, {}, now) == t;
    } else {
      var n := |order| - 1;
      var init, a := order[..n], order[n];
      TakenStep(own, order);
      AdoptClosedForm(cfg, own, conns, p, t, init, now);
      var before := Taken(own, set x | x in init);
      if Pop(a) !in own {
        SettledStep(cfg, conns, t, before, a, now);
        AdoptDials(cfg, conns, p, t, before, a, Adopt(cfg, own, conns, p, t, init, now),
                   Adopt(cfg, own, conns, p, t, order, now));
      }
    }
  }

  lemma AdoptDials(cfg: Config, conns: set<Multiaddr>, p: PeerId, t: Table, before: set<Multiaddr>, a: Multiaddr,
                   acc: Adopted, r: Adopted)
    requires a !in before
    requires forall d :: multiset(acc.dials)[d] == Wanted(p, ToDial(cfg, conns, t, before), d)
    requires r.dials == if a !in t && !(cfg.portReuse && a in conns)
                        then acc.dials + [ValidationDial(p, a, IDENTIFY_RETRIES)] else acc.dials
    ensures forall d :: multiset(r.dials)[d] == Wanted(p, ToDial(cfg, conns, t, before + {a}), d)
  {
    var s, s' := ToDial(cfg, conns, t, before), ToDial(cfg, conns, t, before + {a});
    var v := ValidationDial(p, a, IDENTIFY_RETRIES);
    if a !in t && !(cfg.portReuse && a in conns) {
      assert s' == s + {a};
      assert multiset(r.dials) == multiset(acc.dials) + multiset{v};
      forall d ensures multiset(r.dials)[d] == Wanted(p, s', d) {
        if d == v {
          assert Wanted(p, s, d) == 0;
        }
      }
    } else {
      assert s' == s;
    }
  }

  /**
   The closed form of an Identify for a known peer.  Old addresses that were not incoming keep
   their source; every suggestion that is not one of our listeners is present; a new one is a
   candidate when its connection is open and ports are reused, else a listen address dialled
   exactly once; and no incoming address is left.  None of it depends on the visiting order.
   */
  lemma SetInfoClosedForm(cfg: Config, b: Book, p: PeerId, ident: Identify, order: seq<Multiaddr>, now: int)
    requires p in b.peers
    requires Enumerates(order, Suggested(cfg, Identified(b.peers[p], ident), p))
    ensures var info := Identified(b.peers[p], ident);
      var base := DropIncoming(info.addresses);
      var taken := Taken(b.listeners, Suggested(cfg, info, p));
      var r := SetInfo(cfg, b, p, ident, order, now);
      && r.peers == b.peers[p := info.(addresses := Settled(cfg, info.connections.Keys, base, taken, now))]
      && NoIncoming(r.peers[p].addresses)
      && r.listeners == b.listeners && r.deferred == b.deferred && r.log == b.log + [NewInfo(p)]
      && |b.actions| <= |r.actions| && r.actions[..|b.actions|] == b.actions
      && forall d :: multiset(r.actions[|b.actions|..])[d]
                     == Wanted(p, ToDial(cfg, info.connections.Keys, base, taken), d)
  {
    var info := Identified(b.peers[p], ident);
    DropIncomingFacts(info.addresses);
    AdoptClosedForm(cfg, b.listeners, info.connections.Keys, p, DropIncoming(info.addresses), order, now);
    assert (set a | a in order) == Suggested(cfg, info, p);
    var r := SetInfo(cfg, b, p, ident, order, now);
    var dials := Adopt(cfg, b.listeners, info.connections.Keys, p, DropIncoming(info.addresses), order, now).dials;
    assert r.actions[|b.actions|..] == dials;
  }

  /** Two visiting orders differ at most in the order in which the same dials are queued. */
  lemma SetInfoOrderIrrelevant(cfg: Config, b: Book, p: PeerId, ident: Identify, xs: seq<Multiaddr>, ys: seq<Multiaddr>,
                               now: int)
    requires p in b.peers
    requires Enumerates(xs, Suggested(cfg, Identified(b.peers[p], ident), p))
    requires Enumerates(ys, Suggested(cfg, Identified(b.peers[p], ident), p))
    ensures var r, s := SetInfo(cfg, b, p, ident, xs, now), SetInfo(cfg, b, p, ident, ys, now);
      && r == s.(actions := r.actions)
      && multiset(r.actions) == multiset(s.actions)
  {
    SetInfoClosedForm(cfg, b, p, ident, xs, now);
    SetInfoClosedForm(cfg, b, p, ident, ys, now);
    var r, s := SetInfo(cfg, b, p, ident, xs, now), SetInfo(cfg, b, p, ident, ys, now);
    var n := |b.actions|;
    assert multiset(r.actions[n..]) == multiset(s.actions[n..]);
    assert r.actions == b.actions + r.actions[n..];
    assert s.actions == b.actions + s.actions[n..];
  }

  /**
   A repeated Identify is silent: while the peer's addresses and our listeners stay the same, a
   second message with the same listen addresses queues no dial and changes no source, however
   connections, failures and sources moved in between.
   */
  lemma RepeatedIdentifyIsSilent(cfg: Config, b: Book, p: PeerId, ident: Identify, xs: seq<Multiaddr>, now: int,
                                 mid: Book, ident': Identify, ys: seq<Multiaddr>, later: int)
    requires p in b.peers && p in mid.peers
    requires Enumerates(xs, Suggested(cfg, Identified(b.peers[p], ident), p))
    requires Enumerates(ys, Suggested(cfg, Identified(mid.peers[p], ident'), p))
    requires ident'.listenAddrs == ident.listenAddrs && mid.listeners == b.listeners
    requires var first := SetInfo(cfg, b, p, ident, xs, now).peers[p].addresses;
      && mid.peers[p].addresses.Keys == first.Keys
      && forall a :: a in first ==> first[a].source.Rank() <= mid.peers[p].addresses[a].source.Rank()
    ensures var r := SetInfo(cfg, mid, p, ident', ys, later);
      && r.actions == mid.actions
      && r.peers[p].addresses.Keys == mid.peers[p].addresses.Keys
      && forall a :: a in r.peers[p].addresses ==> r.peers[p].addresses[a].source == mid.peers[p].addresses[a].source
  {
    FirstIdentify(cfg, b, p, ident, xs, now);
    StillCovered(cfg, b, p, ident, SetInfo(cfg, b, p, ident, xs, now).peers[p].addresses, mid, ident');
    SilentIdentify(cfg, mid, p, ident', ys, later);
  }

  /** What was covered stays covered while addresses only climb and the same listeners are advertised. */
  lemma StillCovered(cfg: Config, b: Book, p: PeerId, ident: Identify, t: Table, mid: Book, ident': Identify)
    requires p in b.peers && p in mid.peers
    requires ident'.listenAddrs == ident.listenAddrs && mid.listeners == b.listeners
    requires NoIncoming(t) && Covers(cfg, b, p, ident, t) && mid.peers[p].addresses.Keys == t.Keys
    requires forall a :: a in t ==> t[a].source.Rank() <= mid.peers[p].addresses[a].source.Rank()
    ensures NoIncoming(mid.peers[p].addresses) && Covers(cfg, mid, p, ident', mid.peers[p].addresses)
  {
    assert forall a :: a in mid.peers[p].addresses ==> a in t;
    assert Advertised(cfg, Identified(mid.peers[p], ident'), p) == Advertised(cfg, Identified(b.peers[p], ident), p);
  }

  /** Every advertised address that is not one of our listeners is in t. */
  predicate Covers(cfg: Config, b: Book, p: PeerId, ident: Identify, t: Table)
    requires p in b.peers
  {
    Taken(b.listeners, Advertised(cfg, Identified(b.peers[p], ident), p)) <= t.Keys
  }

  lemma FirstIdentify(cfg: Config, b: Book, p: PeerId, ident: Identify, order: seq<Multiaddr>, now: int)
    requires p in b.peers
    requires Enumerates(order, Suggested(cfg, Identified(b.peers[p], ident), p))
    ensures var t := SetInfo(cfg, b, p, ident, order, now).peers[p].addresses;
      NoIncoming(t) && Covers(cfg, b, p, ident, t)
  {
    SetInfoClosedForm(cfg, b, p, ident, order, now);
  }

  /** An Identify that suggests nothing new about a table without incoming addresses is silent. */
  lemma SilentIdentify(cfg: Config, b: Book, p: PeerId, ident: Identify, order: seq<Multiaddr>, now: int)
    requires p in b.peers
    requires Enumerates(order, Suggested(cfg, Identified(b.peers[p], ident), p))
    requires NoIncoming(b.peers[p].addresses) && Covers(cfg, b, p, ident, b.peers[p].addresses)
    ensures var r := SetInfo(cfg, b, p, ident, order, now);
      && r.actions == b.actions
      && r.peers[p].addresses.Keys == b.peers[p].addresses.Keys
      && forall a :: a in r.peers[p].addresses ==> r.peers[p].addresses[a].source == b.peers[p].addresses[a].source
  {
    SetInfoClosedForm(cfg, b, p, ident, order, now);
    var info := Identified(b.peers[p], ident);
    var t := info.addresses;
    assert IncomingAddresses(t) == {};
    assert DropIncoming(t) == t;
    assert Translated(info, p) == {};
    assert Suggested(cfg, info, p) == Advertised(cfg, info, p);
    var taken := Taken(b.listeners, Suggested(cfg, info, p));
    assert ToDial(cfg, info.connections.Keys, t, taken) == {};
    var r := SetInfo(cfg, b, p, ident, order, now);
    var tail := r.actions[|b.actions|..];
    assert multiset(tail) == multiset{};
    assert |tail| == |multiset(tail)|;
    assert r.actions == r.actions[..|b.actions|] + tail;
  }
}
