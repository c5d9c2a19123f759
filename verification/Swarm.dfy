/** The address book together with the swarm it drives: whole runs, and what every step does to a table. */
module Swarms {
  import opened Options
  import opened Multiaddrs
  import opened PeerInfos
  import opened Books
  import opened Translation

  datatype Connection = Connection(peer: PeerId, cp: Endpoint)

  /** The book, the dials handed to the swarm and not yet answered, and the live connections by id. */
  datatype Sys = Sys(book: Book, inflight: multiset<Dialling>, live: map<int, Connection>)

  datatype Step =
    // commands and discovery
    | CmdDial(p: PeerId)
    | CmdDialAddress(p: PeerId, a: Multiaddr)
    | Offered(p: PeerId, a: Multiaddr, src: AddressSource, now: int)
    | CmdRemove(p: PeerId, a: Multiaddr)
    | CmdPrune(minAge: nat, now: int, visit: seq<PeerId>)
    | GotIdentify(p: PeerId, ident: Identify, order: seq<Multiaddr>, now: int)
    | GotPing(p: PeerId, rtt: Option<nat>)
    // polling and the answers of the swarm
    | TakeAction
    | TakeDeferred(d: Dialling)
    | Failed(d: Dialling, peer: Option<PeerId>, err: DialFault, now: int)
    | ForeignFailed(peer: Option<PeerId>, err: DialFault, now: int) // of a dial another behaviour asked for
    | Opened(dial: Option<Dialling>, id: int, p: PeerId, cp: Endpoint, others: nat, now: int)
    | Moved(id: int, cp: Endpoint, now: int)
    | Closed(id: int, left: nat, theirs: bool, now: int)
    | ListenAddr(id: int, a: Multiaddr)
    | ListenExpired(id: int, a: Multiaddr)
    | Notice(e: Event)

  const EMPTY := Sys(Book({}, map[], [], multiset{}, []), multiset{}, map[])

  /** Events that are only passed on to subscribers. */
  predicate IsNotice(e: Event) {
    e.NewListener? || e.ListenerError? || e.ListenerClosed? || e.NewExternalAddr? || e.ExpiredExternalAddr?
    || e.Subscribed? || e.Unsubscribed? || e.Bootstrapped?
  }

  /** What the environment may do: visits are complete, answers are to open dials, swarm events name remote peers. */
  ghost predicate Possible(cfg: Config, s: Sys, step: Step) {
    match step
    case CmdPrune(minAge, now, visit) => Enumerates(visit, Doomed(s.book, minAge, now))
    case GotIdentify(p, ident, order, _) =>
      p in s.book.peers ==> Enumerates(order, Suggested(cfg, Identified(s.book.peers[p], ident), p))
    case TakeAction => s.book.actions != []
    case TakeDeferred(d) => s.book.actions == [] && d in s.book.deferred
    case Failed(d, _, _, _) => d in s.inflight
    case Opened(dial, id, p, cp, _, _) =>
      p != cfg.local && id !in s.live && (dial.Some? ==> dial.value in s.inflight && cp.Dialer?)
    case Moved(id, _, _) => id in s.live && s.live[id].peer != cfg.local
    case Closed(id, _, _, _) => id in s.live && s.live[id].peer != cfg.local
    case Notice(e) => IsNotice(e)
    case _ => true
  }

  /** The live connections to a peer. */
  function LiveTo(live: map<int, Connection>, p: PeerId): set<int> {
    set id | id in live && live[id].peer == p
  }

  /** The swarm counts the other connections to the peer when one opens, and those left when one closes. */
  ghost predicate Enabled(cfg: Config, s: Sys, step: Step) {
    && Possible(cfg, s, step)
    && (step.Opened? ==> step.others == |LiveTo(s.live, step.p)|)
    && (step.Closed? ==> step.left == |LiveTo(s.live - {step.id}, s.live[step.id].peer)|)
  }

  ghost function BookAfter(cfg: Config, s: Sys, step: Step): Book
    requires Possible(cfg, s, step)
  {
    var b := s.book;
    match step
    case CmdDial(p) => DialPeer(cfg, b, p)
    case CmdDialAddress(p, a) => DialAddress(cfg, b, p, a)
    case Offered(p, a, src, now) => AddAddress(cfg, b, p, a, src, now)
    case CmdRemove(p, a) => RemoveAddress(b, p, a)
    case CmdPrune(_, _, visit) => Prune(b, visit)
    case GotIdentify(p, ident, order, now) => SetInfo(cfg, b, p, ident, order, now)
    case GotPing(p, rtt) => RecordRtt(b, p, rtt)
    case TakeAction => b.(actions := b.actions[1..])
    case TakeDeferred(d) => b.(deferred := b.deferred - multiset{d})
    case Failed(d, peer, err, now) => FailDial(cfg, b, d.handler, peer, err, now)
    case ForeignFailed(peer, err, now) => FailDial(cfg, b, Handler(None, cfg.keepAlive), peer, err, now)
    case Opened(_, _, p, cp, others, now) => Established(cfg, b, p, cp, others, now)
    case Moved(id, cp, now) => ChangeAddress(cfg, b, s.live[id].peer, s.live[id].cp, cp, now)
    case Closed(id, left, theirs, now) => CloseConnection(cfg, b, s.live[id].peer, s.live[id].cp, left, theirs, now)
    case ListenAddr(id, a) => AddListenAddr(b, id, a)
    case ListenExpired(id, a) => ExpireListenAddr(b, id, a)
    case Notice(e) => Notify(b, e)
  }

  ghost function InflightAfter(cfg: Config, s: Sys, step: Step): multiset<Dialling>
    requires Possible(cfg, s, step)
  {
    match step
    case TakeAction => s.inflight + multiset{s.book.actions[0]}
    case TakeDeferred(d) => s.inflight + multiset{d}
    case Failed(d, _, _, _) => s.inflight - multiset{d}
    case Opened(dial, _, _, _, _, _) => if dial.Some? then s.inflight - multiset{dial.value} else s.inflight
    case _ => s.inflight
  }

  ghost function LiveAfter(cfg: Config, s: Sys, step: Step): map<int, Connection>
    requires Possible(cfg, s, step)
  {
    match step
    case Opened(_, id, p, cp, _, _) => s.live[id := Connection(p, cp)]
    case Moved(id, cp, _) => s.live[id := s.live[id].(cp := cp)]
    case Closed(id, _, _, _) => s.live - {id}
    case _ => s.live
  }

  ghost function Apply(cfg: Config, s: Sys, step: Step): Sys
    requires Possible(cfg, s, step)
  {
    Sys(BookAfter(cfg, s, step), InflightAfter(cfg, s, step), LiveAfter(cfg, s, step))
  }

  /** A run is legal when each step is enabled where it is taken. */
  ghost predicate Legal(cfg: Config, s: Sys, steps: seq<Step>)
    decreases |steps|
  {
    steps == [] || (Enabled(cfg, s, steps[0]) && Legal(cfg, Apply(cfg, s, steps[0]), steps[1..]))
  }

  ghost function After(cfg: Config, s: Sys, steps: seq<Step>): Sys
    requires Legal(cfg, s, steps)
    decreases |steps|
  {
    if steps == [] then s else After(cfg, Apply(cfg, s, steps[0]), steps[1..])
  }

  lemma OneStep(cfg: Config, s: Sys, x: Step)
    requires Enabled(cfg, s, x)
    ensures Legal(cfg, s, [x]) && After(cfg, s, [x]) == Apply(cfg, s, x)
  {
    var s' := Apply(cfg, s, x);
    assert Legal(cfg, s', []) && After(cfg, s', []) == s';
    assert [x][1..] == [];
  }

  lemma FirstStep(cfg: Config, s: Sys, x: Step, rest: seq<Step>)
    requires Enabled(cfg, s, x) && Legal(cfg, Apply(cfg, s, x), rest)
    ensures Legal(cfg, s, [x] + rest) && After(cfg, s, [x] + rest) == After(cfg, Apply(cfg, s, x), rest)
  {
    assert ([x] + rest)[1..] == rest;
  }

  // ---------- what a step does to a table ----------

  function TableOf(b: Book, p: PeerId): Table {
    PeerOf(b, p).addresses
  }

  function ConnectionsOf(b: Book, p: PeerId): set<Multiaddr> {
    PeerOf(b, p).connections.Keys
  }

  /** The peer a failed dial is charged to. */
  function Blamed(h: Handler, peer: Option<PeerId>): Option<PeerId> {
    if HandlerPeer(h).Some? then HandlerPeer(h) else peer
  }

  /** A dial meant to validate a for p was answered by someone else. */
  predicate WrongAnswer(h: Handler, peer: Option<PeerId>, err: DialFault, p: PeerId, a: Multiaddr) {
    err.WrongPeerId? && h.own.Some? && h.own.value.addr == a && Blamed(h, peer) == Some(p)
  }

  predicate WrongPeer(step: Step, p: PeerId, a: Multiaddr) {
    step.Failed? && WrongAnswer(step.d.handler, step.peer, step.err, p, a)
  }

  predicate Offers(cfg: Config, b: Book, p: PeerId, q: PeerId, a: Multiaddr) {
    p == q && Admissible(cfg, b, q, a)
  }

  ghost predicate TableMove(cfg: Config, s: Sys, step: Step, p: PeerId, t: Table, t': Table)
    requires Possible(cfg, s, step)
  {
    match step
    case Offered(q, a, src, now) =>
      t' == if Offers(cfg, s.book, p, q, a) then Ingest(t, Normalize(a, q), src, now) else t
    case Opened(_, _, q, cp, _, now) =>
      var a := RemoteAddress(NormalizeEndpoint(cp, cfg.local, q));
      t' == if Offers(cfg, s.book, p, q, a) then Ingest(t, a, SourceOf(cp), now) else t
    case Moved(id, cp, now) =>
      var q := s.live[id].peer;
      var a := RemoteAddress(NormalizeEndpoint(cp, cfg.local, q));
      t' == if Offers(cfg, s.book, p, q, a) then Ingest(t, a, SourceOf(cp), now) else t
    case GotIdentify(q, ident, _, now) =>
      if q != p || p !in s.book.peers then t' == t
      else
        var info := Identified(s.book.peers[p], ident);
        var taken := Taken(s.book.listeners, Suggested(cfg, info, p));
        t' == Settled(cfg, info.connections.Keys, DropIncoming(t), taken, now)
    case CmdRemove(q, a) => t' == if q == p then t - {Normalize(a, p)} else t
    case CmdPrune(_, _, visit) => if p in visit then t' == map[] && !HasConfirmed(t) else t' == t
    case Failed(_, _, _, _) =>
      Shrinks(t, t') && forall a :: a in t && a !in t' ==> t[a].source.IsToProbe() || WrongPeer(step, p, a)
    case ForeignFailed(_, _, _) => OnlyProbesLost(t, t')
    case _ => t' == t
  }

  predicate Shrinks(t: Table, t': Table) {
    forall a :: a in t' ==> a in t && t'[a] == t[a]
  }

  /** Removes only addresses of t that are to be probed. */
  predicate OnlyProbesLost(t: Table, t': Table) {
    && Shrinks(t, t')
    && (forall a :: a in t && a !in t' ==> t[a].source.IsToProbe())
  }

  lemma {:induction false} TransportFailuresLose(i: Info, p: PeerId, errors: seq<(Multiaddr, bool)>, now: int)
    ensures OnlyProbesLost(i.addresses, WithTransportFailures(i, p, errors, now).addresses)
    ensures WithTransportFailures(i, p, errors, now).connections == i.connections
    ensures |i.failures| <= MAX_FAILURES ==> |WithTransportFailures(i, p, errors, now).failures| <= MAX_FAILURES
  {
    if errors == [] {
    } else {
      TransportFailuresLose(i, p, errors[..|errors| - 1], now);
    }
  }

  lemma ProbeFailedMoves(b: Book, p: PeerId, probe: Probe, keepAlive: bool, err: DialFault, now: int)
    requires p in b.peers
    ensures var b' := ProbeFailed(b, p, probe, keepAlive, err, now);
      && b'.peers.Keys == b.peers.Keys
      && (forall q :: q in b.peers && q != p ==> b'.peers[q] == b.peers[q])
      && b'.peers[p].connections == b.peers[p].connections
      && Shrinks(b.peers[p].addresses, b'.peers[p].addresses)
      && (|b.peers[p].failures| <= MAX_FAILURES ==> |b'.peers[p].failures| <= MAX_FAILURES)
      && (forall a :: a in b.peers[p].addresses && a !in b'.peers[p].addresses ==>
          b.peers[p].addresses[a].source.IsToProbe() || (err.WrongPeerId? && a == probe.addr))
  {}

  lemma TransportFailedMoves(cfg: Config, b: Book, p: PeerId, errors: seq<(Multiaddr, bool)>, now: int)
    requires p in b.peers
    ensures var b' := TransportFailed(cfg, b, p, errors, now);
      && b'.peers.Keys == b.peers.Keys
      && (forall q :: q in b.peers && q != p ==> b'.peers[q] == b.peers[q])
      && b'.peers[p].connections == b.peers[p].connections
      && (|b.peers[p].failures| <= MAX_FAILURES ==> |b'.peers[p].failures| <= MAX_FAILURES)
      && OnlyProbesLost(b.peers[p].addresses, b'.peers[p].addresses)
  {
    TransportFailuresLose(b.peers[p], p, errors, now);
  }

  /**
   A dial failure removes addresses to be probed, and the validated one when the wrong peer
   answered; nothing else.
   */
  lemma FailDialMoves(cfg: Config, b: Book, h: Handler, peer: Option<PeerId>, err: DialFault, now: int, p: PeerId)
    ensures var b' := FailDial(cfg, b, h, peer, err, now);
      && b'.peers.Keys == b.peers.Keys
      && PeerOf(b', p).connections == PeerOf(b, p).connections
      && (|PeerOf(b, p).failures| <= MAX_FAILURES ==> |PeerOf(b', p).failures| <= MAX_FAILURES)
      && Shrinks(TableOf(b, p), TableOf(b', p))
      && (forall a :: a in TableOf(b, p) && a !in TableOf(b', p) ==>
          TableOf(b, p)[a].source.IsToProbe() || WrongAnswer(h, peer, err, p, a))
  {
    var who := Blamed(h, peer);
    if who.Some? && who.value in b.peers {
      if h.own.Some? {
        ProbeFailedMoves(b, who.value, h.own.value, h.keepAlive, err, now);
      } else if err.Transport? {
        TransportFailedMoves(cfg, b, who.value, err.errors, now);
      }
    }
  }

  lemma NormalizedRemote(cp: Endpoint, local: PeerId, p: PeerId)
    ensures var a := RemoteAddress(NormalizeEndpoint(cp, local, p));
      EndsInP2p(a) && Normalize(a, p) == a && NormalizeEndpoint(cp, local, p).Dialer? == cp.Dialer?
  {}

  lemma IdentifyMoves(cfg: Config, s: Sys, step: Step, p: PeerId)
    requires step.GotIdentify? && Possible(cfg, s, step)
    ensures TableMove(cfg, s, step, p, TableOf(s.book, p), TableOf(BookAfter(cfg, s, step), p))
    ensures ConnectionsOf(BookAfter(cfg, s, step), p) == ConnectionsOf(s.book, p)
    ensures PeerOf(BookAfter(cfg, s, step), p).failures == PeerOf(s.book, p).failures
  {
    if step.p in s.book.peers {
      SetInfoClosedForm(cfg, s.book, step.p, step.ident, step.order, step.now);
    }
  }

  lemma AddAddressMoves(cfg: Config, b: Book, q: PeerId, a: Multiaddr, src: AddressSource, now: int, p: PeerId)
    ensures var b' := AddAddress(cfg, b, q, a, src, now);
      && TableOf(b', p) == (if Offers(cfg, b, p, q, a) then Ingest(TableOf(b, p), Normalize(a, q), src, now)
        else TableOf(b, p))
      && PeerOf(b', p).connections == PeerOf(b, p).connections
      && PeerOf(b', p).failures == PeerOf(b, p).failures
  {}

  lemma EstablishedMoves(cfg: Config, b: Book, q: PeerId, cp: Endpoint, others: nat, now: int, p: PeerId)
    ensures var b' := Established(cfg, b, q, cp, others, now);
      var a := RemoteAddress(NormalizeEndpoint(cp, cfg.local, q));
      && TableOf(b', p) == (if Offers(cfg, b, p, q, a) then Ingest(TableOf(b, p), a, SourceOf(cp), now)
        else TableOf(b, p))
      && ConnectionsOf(b', p) == ConnectionsOf(b, p) + (if p == q then {a} else {})
      && PeerOf(b', p).failures == PeerOf(b, p).failures
  {
    NormalizedRemote(cp, cfg.local, q);
    AddAddressMoves(cfg, b, q, RemoteAddress(NormalizeEndpoint(cp, cfg.local, q)), SourceOf(cp), now, p);
  }

  lemma ChangeAddressMoves(cfg: Config, b: Book, q: PeerId, before: Endpoint, cp: Endpoint, now: int, p: PeerId)
    ensures var b' := ChangeAddress(cfg, b, q, before, cp, now);
      var a := RemoteAddress(NormalizeEndpoint(cp, cfg.local, q));
      var gone := RemoteAddress(NormalizeEndpoint(before, cfg.local, q));
      && TableOf(b', p) == (if Offers(cfg, b, p, q, a) then Ingest(TableOf(b, p), a, SourceOf(cp), now)
        else TableOf(b, p))
      && ConnectionsOf(b', p) == (if p == q then ConnectionsOf(b, p) - {gone} + {a} else ConnectionsOf(b, p))
      && PeerOf(b', p).failures == PeerOf(b, p).failures
  {
    NormalizedRemote(cp, cfg.local, q);
    AddAddressMoves(cfg, b, q, RemoteAddress(NormalizeEndpoint(cp, cfg.local, q)), SourceOf(cp), now, p);
  }

  lemma PruneMoves(b: Book, minAge: nat, now: int, visit: seq<PeerId>, p: PeerId)
    requires Enumerates(visit, Doomed(b, minAge, now))
    ensures ConnectionsOf(Prune(b, visit), p) == ConnectionsOf(b, p)
    ensures |PeerOf(Prune(b, visit), p).failures| <= |PeerOf(b, p).failures|
    ensures if p in visit then TableOf(Prune(b, visit), p) == map[] && !HasConfirmed(TableOf(b, p))
            else TableOf(Prune(b, visit), p) == TableOf(b, p)
  {
    if p in visit {
      assert p in Doomed(b, minAge, now);
      forall a | a in b.peers[p].addresses ensures !b.peers[p].addresses[a].source.IsConfirmed() {
        assert !KeepsAddress(b.peers[p].addresses[a], minAge, now);
      }
    }
  }

  /** Steps that do not touch the peers at all. */
  predicate Idle(step: Step) {
    step.CmdDial? || step.TakeAction? || step.TakeDeferred? || step.ListenAddr? || step.ListenExpired? || step.Notice?
  }

  lemma IdleMoves(cfg: Config, s: Sys, step: Step)
    requires Possible(cfg, s, step) && Idle(step)
    ensures BookAfter(cfg, s, step).peers == s.book.peers
  {}

  /** Steps that touch one peer but not its table. */
  predicate Quiet(step: Step) {
    step.CmdDialAddress? || step.GotPing? || step.Closed?
  }

  lemma QuietMoves(cfg: Config, s: Sys, step: Step, p: PeerId)
    requires Possible(cfg, s, step) && Quiet(step)
    ensures TableOf(BookAfter(cfg, s, step), p) == TableOf(s.book, p)
    ensures !step.Closed? ==> ConnectionsOf(BookAfter(cfg, s, step), p) == ConnectionsOf(s.book, p)
    ensures |PeerOf(s.book, p).failures| <= MAX_FAILURES
      ==> |PeerOf(BookAfter(cfg, s, step), p).failures| <= MAX_FAILURES
  {}

  /** Every step moves every table in one of a few ways. */
  lemma StepMoves(cfg: Config, s: Sys, step: Step, p: PeerId)
    requires Possible(cfg, s, step)
    ensures TableMove(cfg, s, step, p, TableOf(s.book, p), TableOf(BookAfter(cfg, s, step), p))
  {
    match step
    case Failed(d, peer, err, now) => FailDialMoves(cfg, s.book, d.handler, peer, err, now, p);
    case ForeignFailed(peer, err, now) => FailDialMoves(cfg, s.book, Handler(None, cfg.keepAlive), peer, err, now, p);
    case GotIdentify(_, _, _, _) => IdentifyMoves(cfg, s, step, p);
    case Offered(q, a, src, now) => AddAddressMoves(cfg, s.book, q, a, src, now, p);
    case Opened(_, _, q, cp, others, now) => EstablishedMoves(cfg, s.book, q, cp, others, now, p);
    case Moved(id, cp, now) => ChangeAddressMoves(cfg, s.book, s.live[id].peer, s.live[id].cp, cp, now, p);
    case CmdPrune(minAge, now, visit) => PruneMoves(s.book, minAge, now, visit, p);
    case CmdRemove(_, _) =>
    case _ => if Idle(step) { IdleMoves(cfg, s, step); } else { QuietMoves(cfg, s, step, p); }
  }

  // ---------- what a step does to the queued dials ----------

  /** Steps that neither queue nor take a dial. */
  predicate Calm(step: Step) {
    step.CmdRemove? || step.CmdPrune? || step.GotPing? || step.Opened? || step.Moved? || step.Closed?
    || step.ListenAddr? || step.ListenExpired? || step.Notice?
  }

  lemma ConnectionsAskNoDial(cfg: Config, b: Book, p: PeerId, before: Endpoint, cp: Endpoint, others: nat, now: int)
    ensures var b' := Established(cfg, b, p, cp, others, now); b'.actions == b.actions && b'.deferred == b.deferred
    ensures var b' := ChangeAddress(cfg, b, p, before, cp, now); b'.actions == b.actions && b'.deferred == b.deferred
  {
    NormalizedRemote(cp, cfg.local, p);
  }

  /** Connections that come, move or go never ask for a dial: neither of their sources is to be probed. */
  lemma CalmQueues(cfg: Config, s: Sys, step: Step)
    requires Possible(cfg, s, step) && Calm(step)
    ensures var b' := BookAfter(cfg, s, step); b'.actions == s.book.actions && b'.deferred == s.book.deferred
    ensures step.Opened? || InflightAfter(cfg, s, step) == s.inflight
  {
    match step
    case Opened(_, _, p, cp, others, now) => ConnectionsAskNoDial(cfg, s.book, p, cp, cp, others, now);
    case Moved(id, cp, now) => ConnectionsAskNoDial(cfg, s.book, s.live[id].peer, s.live[id].cp, cp, 0, now);
    case _ =>
  }
}
