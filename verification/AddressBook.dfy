/**
 The address book as a value, and every operation on it as a function.  Wherever the
 source iterates a hash map, the operation takes the order of the visit as an argument.
 */
module Books {
  import opened Options
  import opened Multiaddrs
  import opened PeerInfos

  const SIM_OPEN_RETRIES: nat := 10
  const IDENTIFY_RETRIES: nat := 4
  const TEN_SECONDS: nat := 10_000_000_000

  datatype Config = Config(portReuse: bool, enableLoopback: bool, keepAlive: bool, local: PeerId)

  /** The address a dial is meant to validate, and how often it may still be repeated. */
  datatype Probe = Probe(addr: Multiaddr, retries: nat)

  datatype Handler = Handler(own: Option<Probe>, keepAlive: bool)

  /** A dial request; `always` is the condition that dials even when connected. */
  datatype Dialling = Dialling(peer: PeerId, always: bool, addresses: seq<Multiaddr>, handler: Handler)

  datatype Endpoint =
    | Dialer(address: Multiaddr, roleOverride: bool)
    | Listener(localAddr: Multiaddr, sendBackAddr: Multiaddr)

  /** Dial errors; a transport error says per address whether it looks like a simultaneous open. */
  datatype DialFault =
    | Transport(errors: seq<(Multiaddr, bool)>)
    | WrongPeerId
    | ConnectionIo
    | ConditionFalse
    | Banned
    | LocalPeerId
    | OtherFault

  datatype Event =
    | NewListener(id: int)
    | NewListenAddr(id: int, addr: Multiaddr)
    | ExpiredListenAddr(id: int, addr: Multiaddr)
    | ListenerError(id: int)
    | ListenerClosed(id: int)
    | NewExternalAddr(addr: Multiaddr)
    | ExpiredExternalAddr(addr: Multiaddr)
    | Discovered(peer: PeerId)
    | DialFailure(peer: PeerId, addr: Multiaddr)
    | Unreachable(peer: PeerId)
    | ConnectionEstablished(peer: PeerId, cp: Endpoint)
    | ConnectionClosed(peer: PeerId, cp: Endpoint)
    | AddressChanged(peer: PeerId, before: Endpoint, after: Endpoint)
    | Connected(peer: PeerId)
    | Disconnected(peer: PeerId)
    | Subscribed(peer: PeerId, topic: string)
    | Unsubscribed(peer: PeerId, topic: string)
    | Bootstrapped
    | NewInfo(peer: PeerId)

  /** `log` is everything ever notified; the deferred dials are released in any order. */
  datatype Book = Book(
    listeners: set<Multiaddr>,
    peers: map<PeerId, Info>,
    actions: seq<Dialling>,
    deferred: multiset<Dialling>,
    log: seq<Event>)

  datatype Identify = Identify(
    protocolVersion: string,
    agentVersion: string,
    protocols: seq<string>,
    listenAddrs: seq<Multiaddr>)

  // ---------- helpers ----------

  function PeerOf(b: Book, p: PeerId): Info {
    if p in b.peers then b.peers[p] else DEFAULT_INFO
  }

  function Pop(m: Multiaddr): Multiaddr {
    if m == [] then m else m[..|m| - 1]
  }

  function NormalizeEndpoint(cp: Endpoint, local: PeerId, remote: PeerId): Endpoint {
    match cp
    case Dialer(a, role) => Dialer(Normalize(a, remote), role)
    case Listener(l, s) => Listener(Normalize(l, local), Normalize(s, remote))
  }

  function RemoteAddress(cp: Endpoint): Multiaddr {
    match cp
    case Dialer(a, _) => a
    case Listener(_, s) => s
  }

  function SourceOf(cp: Endpoint): AddressSource {
    if cp.Dialer? then Dial else Incoming
  }

  function DirectionOf(cp: Endpoint): Direction {
    if cp.Dialer? then Outbound else Inbound
  }

  /** Time passed, or zero when the clock ran backwards. */
  function Age(former: int, latter: int): nat {
    if latter < former then 0 else latter - former
  }

  /** A visit of a hash set: every element once, in some order. */
  ghost predicate Enumerates<T(!new)>(order: seq<T>, s: set<T>) {
    && (forall x :: x in order <==> x in s)
    && (forall i, j :: 0 <= i < j < |order| ==> order[i] != order[j])
  }

  function HandlerPeer(h: Handler): Option<PeerId> {
    if h.own.Some? then AddrPeer(h.own.value.addr) else None
  }

  // ---------- user commands ----------

  function DialPeer(cfg: Config, b: Book, p: PeerId): Book {
    if p == cfg.local then b
    else b.(actions := b.actions + [Dialling(p, false, [], Handler(None, cfg.keepAlive))])
  }

  function DialAddress(cfg: Config, b: Book, p: PeerId, a: Multiaddr): Book {
    if p == cfg.local then b
    else
      var target := Normalize(a, p);
      var b' := b.(peers := b.peers[p := PeerOf(b, p)]);
      if target in PeerOf(b, p).connections then b'
      else b'.(actions := b.actions
                          + [Dialling(p, false, [a],
                                      Handler(Some(Probe(target, SIM_OPEN_RETRIES + 1)), cfg.keepAlive))])
  }

  function ValidationDial(p: PeerId, full: Multiaddr, retries: nat): Dialling {
    Dialling(p, true, [Pop(full)], Handler(Some(Probe(full, retries)), false))
  }

  /** Neither ourselves, nor an address out of scope, nor one of our own listeners. */
  predicate Admissible(cfg: Config, b: Book, p: PeerId, a: Multiaddr) {
    && p != cfg.local
    && (cfg.enableLoopback || !IsLoopback(a))
    && WithoutPeer(a) !in b.listeners
  }

  function AddAddress(cfg: Config, b: Book, p: PeerId, a: Multiaddr, src: AddressSource, now: int): Book {
    if !Admissible(cfg, b, p, a) then b
    else
      var full := Normalize(a, p);
      var info := PeerOf(b, p);
      var dial := Probes(info.addresses, full, src) && full !in info.connections;
      var discovered := !HasConfirmed(info.addresses) && src.IsConfirmed();
      b.(peers := b.peers[p := info.(addresses := Ingest(info.addresses, full, src, now))],
         actions := b.actions + (if dial then [ValidationDial(p, full, SIM_OPEN_RETRIES + 1)] else []),
         log := b.log + ((if discovered then [Discovered(p)] else []) + [NewInfo(p)]))
  }

  function RemoveAddress(b: Book, p: PeerId, a: Multiaddr): Book {
    if p !in b.peers then b
    else b.(peers := b.peers[p := b.peers[p].(addresses := b.peers[p].addresses - {Normalize(a, p)})])
  }

  // ---------- pruning ----------

  predicate KeepsAddress(e: Entry, minAge: nat, now: int) {
    e.source.IsConfirmed()
    || (e.source.IsToProbe() && Age(e.time, now) < (if minAge < TEN_SECONDS then TEN_SECONDS else minAge))
  }

  predicate Keeps(i: Info, minAge: nat, now: int) {
    || i.connections != map[]
    || (i.failures != [] && Age(i.failures[0].time, now) < minAge)
    || exists a :: a in i.addresses && KeepsAddress(i.addresses[a], minAge, now)
  }

  function Doomed(b: Book, minAge: nat, now: int): set<PeerId> {
    set p | p in b.peers && !Keeps(b.peers[p], minAge, now)
  }

  function NewInfos(order: seq<PeerId>): seq<Event> {
    seq(|order|, i requires 0 <= i < |order| => NewInfo(order[i]))
  }

  /** Prunes the peers of `order`, which visits the doomed peers. */
  function Prune(b: Book, order: seq<PeerId>): Book {
    b.(peers := b.peers - (set p | p in order), log := b.log + NewInfos(order))
  }

  // ---------- swarm events ----------

  function Established(cfg: Config, b: Book, p: PeerId, cp: Endpoint, others: nat, now: int): Book {
    var conn := NormalizeEndpoint(cp, cfg.local, p);
    var a := RemoteAddress(conn);
    var b' := AddAddress(cfg, b, p, a, SourceOf(conn), now);
    var info := PeerOf(b', p);
    b'.(peers := b'.peers[p := info.(connections := info.connections[a := (now, DirectionOf(conn))])],
        log := b'.log + ((if others == 0 then [Connected(p)] else []) + [ConnectionEstablished(p, conn)]))
  }

  function ChangeAddress(cfg: Config, b: Book, p: PeerId, before: Endpoint, after: Endpoint, now: int): Book {
    var old' := NormalizeEndpoint(before, cfg.local, p);
    var new' := NormalizeEndpoint(after, cfg.local, p);
    var a := RemoteAddress(new');
    var b' := AddAddress(cfg, b, p, a, SourceOf(new'), now);
    var info := PeerOf(b', p);
    b'.(peers := b'.peers[p := info.(connections :=
                            (info.connections - {RemoteAddress(old')})[a := (now, DirectionOf(new'))])],
        log := b'.log + [AddressChanged(p, old', new')])
  }

  function CloseConnection(cfg: Config, b: Book, p: PeerId, cp: Endpoint, left: nat, theirs: bool, now: int): Book {
    var conn := NormalizeEndpoint(cp, cfg.local, p);
    var a := RemoteAddress(conn);
    var info := PeerOf(b, p);
    var failure := Failure(if theirs then PeerDisconnected else WeDisconnected, WithoutPeer(a), now);
    b.(peers := b.peers[p := WithFailure(info.(connections := info.connections - {a}), a, failure, false)],
       log := b.log + ([ConnectionClosed(p, conn)] + (if left == 0 then [Disconnected(p)] else []) + [NewInfo(p)]))
  }

  function RecordRtt(b: Book, p: PeerId, rtt: Option<nat>): Book {
    if p !in b.peers then b
    else b.(peers := b.peers[p := WithRtt(b.peers[p], rtt)], log := b.log + [NewInfo(p)])
  }

  function AddListenAddr(b: Book, id: int, a: Multiaddr): Book {
    b.(listeners := b.listeners + {a}, log := b.log + [NewListenAddr(id, a)])
  }

  function ExpireListenAddr(b: Book, id: int, a: Multiaddr): Book {
    b.(listeners := b.listeners - {a}, log := b.log + [ExpiredListenAddr(id, a)])
  }

  function Notify(b: Book, e: Event): Book {
    b.(log := b.log + [e])
  }

  // ---------- dial failures ----------

  /** The record of a failed dial; the peer suffix is stripped by the caller and once more by the record. */
  function DialRecord(a: Multiaddr, now: int): Failure {
    Failure(FailureKind.DialError, WithoutPeer(WithoutPeer(a)), now)
  }

  predicate ProbeResult(err: DialFault) {
    err.Transport? || err.WrongPeerId? || err.ConnectionIo?
  }

  predicate SimOpen(err: DialFault) {
    err.Transport? && exists i :: 0 <= i < |err.errors| && err.errors[i].1
  }

  function Redial(p: PeerId, a: Multiaddr, retries: nat, keepAlive: bool): Dialling {
    Dialling(p, false, [a], Handler(Some(Probe(a, retries)), keepAlive))
  }

  /** The redials a transport error without an address of our own asks for, one per simultaneous open. */
  function Redials(cfg: Config, p: PeerId, errors: seq<(Multiaddr, bool)>): seq<Dialling> {
    if errors == [] then []
    else
      var n := |errors| - 1;
      Redials(cfg, p, errors[..n])
      + (if errors[n].1 then [Redial(p, errors[n].0, SIM_OPEN_RETRIES, cfg.keepAlive)] else [])
  }

  function WithTransportFailures(i: Info, p: PeerId, errors: seq<(Multiaddr, bool)>, now: int): Info {
    if errors == [] then i
    else
      var n := |errors| - 1;
      var a := errors[n].0;
      WithFailure(WithTransportFailures(i, p, errors[..n], now),
                  Normalize(a, p), DialRecord(a, now), true)
  }

  function DialFailures(p: PeerId, errors: seq<(Multiaddr, bool)>): seq<Event> {
    seq(|errors|, i requires 0 <= i < |errors| => DialFailure(p, errors[i].0))
  }

  /** Failure of a dial meant to validate `probe`. */
  function ProbeFailed(b: Book, p: PeerId, probe: Probe, keepAlive: bool, err: DialFault, now: int): Book
    requires p in b.peers
  {
    var a := probe.addr;
    var failed := WithFailure(b.peers[p], a, DialRecord(a, now), ProbeResult(err));
    var info := if err.WrongPeerId? then failed.(addresses := failed.addresses - {a}) else failed;
    b.(peers := b.peers[p := info],
       deferred := if SimOpen(err) && probe.retries > 0
                   then b.deferred + multiset{Redial(p, a, probe.retries - 1, keepAlive)} else b.deferred,
       log := b.log + [DialFailure(p, a), NewInfo(p)])
  }

  /** Failure of a dial of the peer as such, with one error per address tried. */
  function TransportFailed(cfg: Config, b: Book, p: PeerId, errors: seq<(Multiaddr, bool)>, now: int): Book
    requires p in b.peers
  {
    var redials := Redials(cfg, p, errors);
    b.(peers := b.peers[p := WithTransportFailures(b.peers[p], p, errors, now)],
       deferred := b.deferred + multiset(redials),
       log := b.log + (DialFailures(p, errors) + (if redials == [] then [Unreachable(p)] else []) + [NewInfo(p)]))
  }

  function FailDial(cfg: Config, b: Book, h: Handler, peer: Option<PeerId>, err: DialFault, now: int): Book {
    var who := if HandlerPeer(h).Some? then HandlerPeer(h) else peer;
    if who.None? || who.value !in b.peers then b
    else
      var p := who.value;
      if h.own.Some? then ProbeFailed(b, p, h.own.value, h.keepAlive, err, now)
      else match err
        case Transport(errors) => TransportFailed(cfg, b, p, errors, now)
        case ConditionFalse => b
        case Banned => b
        case LocalPeerId => b
        case _ => Notify(b, Unreachable(p))
  }

  // ---------- identify ----------

  /** Address and port of the advertised listeners we are not connected to. */
  function ListenPorts(i: Info, p: PeerId): set<(Proto, int)> {
    set a | a in i.listeners && Normalize(a, p) !in i.connections && IpPort(a).Some? :: IpPort(a).value
  }

  /** The ports to try for an incoming address: those advertised for its IP, else all advertised. */
  function PortsFor(ip: Proto, ports: set<(Proto, int)>): set<int> {
    var same := set x | x in ports && x.0 == ip :: x.1;
    if same != {} then same else set x | x in ports :: x.1
  }

  /** The listen addresses guessed from one incoming address; itself when nothing is advertised. */
  function Guesses(a: Multiaddr, ports: set<(Proto, int)>): set<Multiaddr> {
    if IpPort(a).None? then {}
    else
      var qs := PortsFor(IpPort(a).value.0, ports);
      if qs == {} then {a} else set q | q in qs :: ReplacePort(a, q).value
  }

  function IncomingAddresses(t: Table): set<Multiaddr> {
    set a | a in t && t[a].source.IsToTranslate()
  }

  function Translated(i: Info, p: PeerId): set<Multiaddr> {
    set a, g | a in IncomingAddresses(i.addresses) && g in Guesses(a, ListenPorts(i, p)) :: g
  }

  function Advertised(cfg: Config, i: Info, p: PeerId): set<Multiaddr> {
    set a | a in i.listeners && (cfg.enableLoopback || !IsLoopback(a)) :: Normalize(a, p)
  }

  function Identified(i: Info, ident: Identify): Info {
    i.(protocolVersion := Some(ident.protocolVersion), agentVersion := Some(ident.agentVersion),
       protocols := ident.protocols, listeners := ident.listenAddrs)
  }

  /** The addresses an Identify message suggests for p. */
  function Suggested(cfg: Config, i: Info, p: PeerId): set<Multiaddr> {
    Translated(i, p) + Advertised(cfg, i, p)
  }

  function DropIncoming(t: Table): Table {
    t - IncomingAddresses(t)
  }

  datatype Adopted = Adopted(table: Table, dials: seq<Dialling>)

  /** One suggested address: skipped when it is our own, dialled when new, only offered when we hold that connection. */
  function AdoptOne(cfg: Config, own: set<Multiaddr>, conns: set<Multiaddr>, p: PeerId, acc: Adopted, a: Multiaddr,
                    now: int): Adopted
  {
    if Pop(a) in own then acc
    else
      var t := Ingest(acc.table, a, Listen, now);
      if !Probes(acc.table, a, Listen) then Adopted(t, acc.dials)
      else if cfg.portReuse && a in conns then Adopted(Ingest(t, a, Candidate, now), acc.dials)
      else Adopted(t, acc.dials + [ValidationDial(p, a, IDENTIFY_RETRIES)])
  }

  function Adopt(cfg: Config, own: set<Multiaddr>, conns: set<Multiaddr>, p: PeerId, t: Table, order: seq<Multiaddr>,
                 now: int): Adopted
  {
    if order == [] then Adopted(t, [])
    else AdoptOne(cfg, own, conns, p, Adopt(cfg, own, conns, p, t, order[..|order| - 1], now), order[|order| - 1], now)
  }

  /** Processes an Identify message, visiting the suggested addresses in the given order. */
  function SetInfo(cfg: Config, b: Book, p: PeerId, ident: Identify, order: seq<Multiaddr>, now: int): Book {
    if p !in b.peers then b
    else
      var info := Identified(b.peers[p], ident);
      var r := Adopt(cfg, b.listeners, info.connections.Keys, p, DropIncoming(info.addresses), order, now);
      b.(peers := b.peers[p := info.(addresses := r.table)],
         actions := b.actions + r.dials,
         log := b.log + [NewInfo(p)])
  }
}
