/** Values that may be absent, as the source's `Option`. */
module Options {
  datatype Option<+T> = None | Some(value: T)
}

/**
 Multiaddresses and the address helpers of the address book.  A multiaddress is the
 sequence of its protocol components; a peer id inside an address is a multihash
 that need not be a valid peer id.
 */
module Multiaddrs {
  import opened Options

  datatype PeerId = PeerId(key: int)

  datatype Multihash = OfPeer(peer: PeerId) | Foreign(bits: int)

  datatype Proto =
    | Ip4(a: int, b: int, c: int, d: int)
    | Ip6(bits: int)
    | Tcp(port: int)
    | P2p(hash: Multihash)
    | Other(code: int)

  type Multiaddr = seq<Proto>

  predicate EndsInP2p(m: Multiaddr) {
    |m| > 0 && m[|m| - 1].P2p?
  }

  /** Appends the peer unless the address already ends in some peer component, whichever it is. */
  function Normalize(m: Multiaddr, peer: PeerId): Multiaddr {
    if EndsInP2p(m) then m else m + [P2p(OfPeer(peer))]
  }

  function WithoutPeer(m: Multiaddr): Multiaddr {
    if EndsInP2p(m) then m[..|m| - 1] else m
  }

  /** The peer an address names in its last component, if that is a valid peer id. */
  function AddrPeer(m: Multiaddr): Option<PeerId> {
    if EndsInP2p(m) && m[|m| - 1].hash.OfPeer? then Some(m[|m| - 1].hash.peer) else None
  }

  /** True of every address that does not start with a non-loopback IPv4 component. */
  predicate IsLoopback(m: Multiaddr) {
    !(|m| > 0 && m[0].Ip4? && m[0].a != 127)
  }

  /** IP component and TCP port of an address that starts with the two. */
  function IpPort(m: Multiaddr): Option<(Proto, int)> {
    if |m| >= 2 && (m[0].Ip4? || m[0].Ip6?) && m[1].Tcp? then Some((m[0], m[1].port)) else None
  }

  /** Replacing the second component fails on an address that has none. */
  function ReplacePort(m: Multiaddr, port: int): Option<Multiaddr> {
    if |m| >= 2 then Some(m[1 := Tcp(port)]) else None
  }

  /** Normalising is idempotent, keeps the bare address and never changes loopback scope. */
  lemma NormalizeFacts(m: Multiaddr, p: PeerId, q: PeerId)
    ensures EndsInP2p(Normalize(m, p))
    ensures Normalize(Normalize(m, p), q) == Normalize(m, p)
    ensures WithoutPeer(Normalize(m, p)) == WithoutPeer(m)
    ensures IsLoopback(Normalize(m, p)) == IsLoopback(m)
    ensures Normalize(m, p) == Normalize(m, q) && p != q ==> EndsInP2p(m)
  {
    if !EndsInP2p(m) {
      assert Normalize(m, p)[|m|] == P2p(OfPeer(p));
      assert Normalize(m, q)[|m|] == P2p(OfPeer(q));
      assert Normalize(m, p)[..|m|] == m;
    }
  }

  /** Port replacement succeeds on every address that has an IP and port, and keeps suffix and scope. */
  lemma ReplacePortFacts(m: Multiaddr, port: int)
    requires EndsInP2p(m) && IpPort(m).Some?
    ensures ReplacePort(m, port).Some?
    ensures var r := ReplacePort(m, port).value;
      && EndsInP2p(r)
      && IsLoopback(r) == IsLoopback(m)
      && IpPort(r) == Some((IpPort(m).value.0, port))
      && WithoutPeer(r) == WithoutPeer(m)[1 := Tcp(port)]
  {
    assert |m| > 2;
  }

  /** An address has an IP and a port exactly when it begins with an IP of either version and a TCP port. */
  lemma IpPortExact(m: Multiaddr, ip: Proto, port: int)
    ensures IpPort(m) == Some((ip, port)) <==> (ip.Ip4? || ip.Ip6?) && |m| >= 2 && m[..2] == [ip, Tcp(port)]
  {
    if |m| >= 2 {
      assert m[..2] == [m[0], m[1]];
    }
  }

  /** The last component alone says whether an address names a peer, and which. */
  lemma PeerSuffix(m: Multiaddr, x: Proto, p: PeerId)
    ensures EndsInP2p(m + [x]) <==> x.P2p?
    ensures WithoutPeer(m + [x]) == if x.P2p? then m else m + [x]
    ensures AddrPeer(m + [x]) == Some(p) <==> x == P2p(OfPeer(p))
    ensures AddrPeer([]) == None && WithoutPeer([]) == []
    ensures Normalize(m + [x], p) == if x.P2p? then m + [x] else m + [x, P2p(OfPeer(p))]
    ensures Normalize([], p) == [P2p(OfPeer(p))]
  {
    assert (m + [x])[..|m + [x]| - 1] == m;
    assert m + [x] + [P2p(OfPeer(p))] == m + [x, P2p(OfPeer(p))];
  }

  /** Only addresses that begin with an IPv4 address outside 127.0.0.0/8 are out of loopback scope. */
  lemma LoopbackScope(m: Multiaddr)
    ensures !IsLoopback(m) <==> exists a, b, c, d :: a != 127 && [Ip4(a, b, c, d)] <= m
  {
    if !IsLoopback(m) {
      var Ip4(a, b, c, d) := m[0];
      assert [Ip4(a, b, c, d)] <= m;
    }
  }
}
