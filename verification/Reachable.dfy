/** What holds in every state the address book can reach, whatever the swarm and the user do. */
module Reachable {
  import opened Options
  import opened Multiaddrs
  import opened PeerInfos
  import opened Books
  import opened Swarms

  /** Stored addresses carry a peer suffix and, with loopback disabled, are never in loopback scope. */
  predicate AddrOk(cfg: Config, a: Multiaddr) {
    EndsInP2p(a) && (cfg.enableLoopback || !IsLoopback(a))
  }

  predicate TableOk(cfg: Config, t: Table) {
    forall a :: a in t ==> AddrOk(cfg, a)
  }

  predicate AllEndInP2p(s: set<Multiaddr>) {
    forall a :: a in s ==> EndsInP2p(a)
  }

  predicate BudgetOk(d: Dialling) {
    d.handler.own.Some? ==> d.handler.own.value.retries <= SIM_OPEN_RETRIES + 1
  }

  ghost predicate DialsOk(s: Sys) {
    && (forall d :: d in s.book.actions ==> BudgetOk(d))
    && (forall d :: d in s.book.deferred ==> BudgetOk(d))
    && (forall d :: d in s.inflight ==> BudgetOk(d))
  }

  ghost predicate WellFormed(cfg: Config, s: Sys) {
    && cfg.local !in s.book.peers
    && DialsOk(s)
    && forall p :: p in s.book.peers ==>
         && TableOk(cfg, s.book.peers[p].addresses)
         && AllEndInP2p(s.book.peers[p].connections.Keys)
         && |s.book.peers[p].failures| <= MAX_FAILURES
  }

  /** In a good table every port replacement succeeds and every suggestion is again a good address. */
  lemma SuggestionsOk(cfg: Config, i: Info, p: PeerId)
    requires TableOk(cfg, i.addresses)
    ensures forall a :: a in Suggested(cfg, i, p) ==> AddrOk(cfg, a)
    ensures forall a, q :: a in i.addresses && IpPort(a).Some? ==> ReplacePort(a, q).Some?
  {
    forall a, g | a in IncomingAddresses(i.addresses) && g in Guesses(a, ListenPorts(i, p))
      ensures AddrOk(cfg, g)
    {
      if g != a {
        var q :| q in PortsFor(IpPort(a).value.0, ListenPorts(i, p)) && g == ReplacePort(a, q).value;
        ReplacePortFacts(a, q);
      }
    }
    forall a | a in i.listeners && (cfg.enableLoopback || !IsLoopback(a))
      ensures AddrOk(cfg, Normalize(a, p))
    {
      NormalizeFacts(a, p, p);
    }
  }

  lemma TablesStayOk(cfg: Config, s: Sys, step: Step, p: PeerId)
    requires Possible(cfg, s, step) && TableOk(cfg, TableOf(s.book, p))
    ensures TableOk(cfg, TableOf(BookAfter(cfg, s, step), p))
  {
    StepMoves(cfg, s, step, p);
    match step
    case Offered(q, a, _, _) => NormalizeFacts(a, q, q);
    case Opened(_, _, q, cp, _, _) => NormalizedRemote(cp, cfg.local, q);
    case Moved(id, cp, _) => NormalizedRemote(cp, cfg.local, s.live[id].peer);
    case GotIdentify(q, ident, _, _) =>
      if q == p && p in s.book.peers {
        SuggestionsOk(cfg, Identified(s.book.peers[p], ident), p);
      }
    case _ =>
  }

  // ---------- connections ----------

  /** The remote address a live connection is filed under. */
  function Remote(cfg: Config, c: Connection): Multiaddr {
    RemoteAddress(NormalizeEndpoint(c.cp, cfg.local, c.peer))
  }

  predicate Reshapes(step: Step) {
    step.Opened? || step.Moved? || step.Closed?
  }

  lemma QuietConnections(cfg: Config, s: Sys, step: Step, p: PeerId)
    requires Possible(cfg, s, step) && !Reshapes(step)
    ensures ConnectionsOf(BookAfter(cfg, s, step), p) == ConnectionsOf(s.book, p)
  {
    match step
    case Failed(d, peer, err, now) => FailDialMoves(cfg, s.book, d.handler, peer, err, now, p);
    case ForeignFailed(peer, err, now) => FailDialMoves(cfg, s.book, Handler(None, cfg.keepAlive), peer, err, now, p);
    case GotIdentify(_, _, _, _) => IdentifyMoves(cfg, s, step, p);
    case Offered(q, a, src, now) => AddAddressMoves(cfg, s.book, q, a, src, now, p);
    case CmdPrune(minAge, now, visit) => PruneMoves(s.book, minAge, now, visit, p);
    case CmdRemove(_, _) =>
    case _ => if Idle(step) { IdleMoves(cfg, s, step); } else { QuietMoves(cfg, s, step, p); }
  }

  /** The only steps that change a peer's connection keys, and how. */
  lemma StepConnections(cfg: Config, s: Sys, step: Step, p: PeerId)
    requires Possible(cfg, s, step)
    ensures var c, c' := ConnectionsOf(s.book, p), ConnectionsOf(BookAfter(cfg, s, step), p);
      match step
      case Opened(_, _, q, cp, _, _) => c' == c + (if p == q then {Remote(cfg, Connection(q, cp))} else {})
      case Moved(id, cp, _) =>
        c' == if p != s.live[id].peer then c
              else c - {Remote(cfg, s.live[id])} + {Remote(cfg, Connection(p, cp))}
      case Closed(id, _, _, _) => c' == c - (if p == s.live[id].peer then {Remote(cfg, s.live[id])} else {})
      case _ => c' == c
  {
    match step
    case Opened(_, _, q, cp, others, now) => EstablishedMoves(cfg, s.book, q, cp, others, now, p);
    case Moved(id, cp, now) => ChangeAddressMoves(cfg, s.book, s.live[id].peer, s.live[id].cp, cp, now, p);
    case Closed(id, left, theirs, now) =>
    case _ => QuietConnections(cfg, s, step, p);
  }

  lemma ConnectionsStayOk(cfg: Config, s: Sys, step: Step, p: PeerId)
    requires Possible(cfg, s, step) && AllEndInP2p(ConnectionsOf(s.book, p))
    ensures AllEndInP2p(ConnectionsOf(BookAfter(cfg, s, step), p))
  {
    StepConnections(cfg, s, step, p);
  }

  // ---------- keys, failures, budgets ----------

  lemma FailuresStayShort(cfg: Config, s: Sys, step: Step, p: PeerId)
    requires Possible(cfg, s, step) && |PeerOf(s.book, p).failures| <= MAX_FAILURES
    ensures |PeerOf(BookAfter(cfg, s, step), p).failures| <= MAX_FAILURES
  {
    match step
    case Failed(d, peer, err, now) => FailDialMoves(cfg, s.book, d.handler, peer, err, now, p);
    case ForeignFailed(peer, err, now) => FailDialMoves(cfg, s.book, Handler(None, cfg.keepAlive), peer, err, now, p);
    case GotIdentify(_, _, _, _) => IdentifyMoves(cfg, s, step, p);
    case Offered(q, a, src, now) => AddAddressMoves(cfg, s.book, q, a, src, now, p);
    case Opened(_, _, q, cp, others, now) => EstablishedMoves(cfg, s.book, q, cp, others, now, p);
    case Moved(id, cp, now) => ChangeAddressMoves(cfg, s.book, s.live[id].peer, s.live[id].cp, cp, now, p);
    case CmdPrune(minAge, now, visit) => PruneMoves(s.book, minAge, now, visit, p);
    case CmdRemove(_, _) =>
    case _ => if Idle(step) { IdleMoves(cfg, s, step); } else { QuietMoves(cfg, s, step, p); }
  }

  lemma LocalStaysOut(cfg: Config, s: Sys, step: Step)
    requires Possible(cfg, s, step) && cfg.local !in s.book.peers
    ensures cfg.local !in BookAfter(cfg, s, step).peers
  {
    match step
    case Failed(d, peer, err, now) => FailDialMoves(cfg, s.book, d.handler, peer, err, now, cfg.local);
    case ForeignFailed(peer, err, now) =>
      FailDialMoves(cfg, s.book, Handler(None, cfg.keepAlive), peer, err, now, cfg.local);
    case _ =>
  }

  lemma {:induction false} RedialBudgets(cfg: Config, p: PeerId, errors: seq<(Multiaddr, bool)>)
    ensures forall d :: d in Redials(cfg, p, errors) ==>
      d.handler.own.Some? && d.handler.own.value.retries == SIM_OPEN_RETRIES
  {
    if errors == [] {
    } else {
      RedialBudgets(cfg, p, errors[..|errors| - 1]);
    }
  }

  lemma {:induction false} AdoptBudgets(cfg: Config, own: set<Multiaddr>, conns: set<Multiaddr>, p: PeerId, t: Table,
                                        order: seq<Multiaddr>, now: int)
    ensures forall d :: d in Adopt(cfg, own, conns, p, t, order, now).dials ==> BudgetOk(d)
  {
    if order == [] {
    } else {
      AdoptBudgets(cfg, own, conns, p, t, order[..|order| - 1], now);
    }
  }

  lemma FailBudgets(cfg: Config, b: Book, h: Handler, peer: Option<PeerId>, err: DialFault, now: int)
    requires h.own.Some? ==> h.own.value.retries <= SIM_OPEN_RETRIES + 1
    requires forall d :: d in b.deferred ==> BudgetOk(d)
    ensures var b' := FailDial(cfg, b, h, peer, err, now);
      && b'.actions == b.actions
      && forall d :: d in b'.deferred ==> BudgetOk(d)
  {
    var who := Blamed(h, peer);
    if who.Some? && err.Transport? {
      RedialBudgets(cfg, who.value, err.errors);
    }
  }

  lemma BudgetsStayOk(cfg: Config, s: Sys, step: Step)
    requires Possible(cfg, s, step) && DialsOk(s)
    ensures DialsOk(Apply(cfg, s, step))
  {
    if Calm(step) {
      CalmQueues(cfg, s, step);
      return;
    }
    match step
    case Failed(d, peer, err, now) => FailBudgets(cfg, s.book, d.handler, peer, err, now);
    case ForeignFailed(peer, err, now) => FailBudgets(cfg, s.book, Handler(None, cfg.keepAlive), peer, err, now);
    case GotIdentify(p, ident, order, now) =>
      if p in s.book.peers {
        var i := Identified(s.book.peers[p], ident);
        AdoptBudgets(cfg, s.book.listeners, i.connections.Keys, p, DropIncoming(i.addresses), order, now);
      }
    case Offered(p, a, src, now) => CommandBudgets(cfg, s.book, p, a, src, now);
    case CmdDial(p) => CommandBudgets(cfg, s.book, p, [], Incoming, 0);
    case CmdDialAddress(p, a) => CommandBudgets(cfg, s.book, p, a, Incoming, 0);
    case _ =>
  }

  lemma CommandBudgets(cfg: Config, b: Book, p: PeerId, a: Multiaddr, src: AddressSource, now: int)
    requires forall d :: d in b.actions ==> BudgetOk(d)
    ensures forall d :: d in DialPeer(cfg, b, p).actions ==> BudgetOk(d)
    ensures forall d :: d in DialAddress(cfg, b, p, a).actions ==> BudgetOk(d)
    ensures forall d :: d in AddAddress(cfg, b, p, a, src, now).actions ==> BudgetOk(d)
  {}

  lemma StaysWellFormed(cfg: Config, s: Sys, step: Step)
    requires Possible(cfg, s, step) && WellFormed(cfg, s)
    ensures WellFormed(cfg, Apply(cfg, s, step))
  {
    LocalStaysOut(cfg, s, step);
    BudgetsStayOk(cfg, s, step);
    var s' := Apply(cfg, s, step);
    forall p | p in s'.book.peers
      ensures TableOk(cfg, s'.book.peers[p].addresses)
      ensures AllEndInP2p(s'.book.peers[p].connections.Keys)
      ensures |s'.book.peers[p].failures| <= MAX_FAILURES
    {
      TablesStayOk(cfg, s, step, p);
      ConnectionsStayOk(cfg, s, step, p);
      FailuresStayShort(cfg, s, step, p);
    }
  }

  /** What well-formedness says of the book alone. */
  ghost predicate BookOk(cfg: Config, b: Book) {
    WellFormed(cfg, Sys(b, multiset{}, map[]))
  }

  lemma StepKeepsBook(cfg: Config, s: Sys, step: Step)
    requires Possible(cfg, s, step) && forall d :: d in s.inflight ==> BudgetOk(d)
    ensures BookOk(cfg, s.book) ==> BookOk(cfg, BookAfter(cfg, s, step))
  {
    if BookOk(cfg, s.book) {
      StaysWellFormed(cfg, s, step);
    }
  }

  lemma OpeningKeepsBook(cfg: Config, b: Book, p: PeerId, cp: Endpoint, others: nat, now: int)
    requires p != cfg.local
    ensures BookOk(cfg, b) ==> BookOk(cfg, Established(cfg, b, p, cp, others, now))
  {
    StepKeepsBook(cfg, Sys(b, multiset{}, map[]), Opened(None, 0, p, cp, others, now));
  }

  lemma MovingKeepsBook(cfg: Config, b: Book, p: PeerId, before: Endpoint, cp: Endpoint, now: int)
    requires p != cfg.local
    ensures BookOk(cfg, b) ==> BookOk(cfg, ChangeAddress(cfg, b, p, before, cp, now))
  {
    StepKeepsBook(cfg, Sys(b, multiset{}, map[0 := Connection(p, before)]), Moved(0, cp, now));
  }

  lemma ClosingKeepsBook(cfg: Config, b: Book, p: PeerId, cp: Endpoint, left: nat, theirs: bool, now: int)
    requires p != cfg.local
    ensures BookOk(cfg, b) ==> BookOk(cfg, CloseConnection(cfg, b, p, cp, left, theirs, now))
  {
    StepKeepsBook(cfg, Sys(b, multiset{}, map[0 := Connection(p, cp)]), Closed(0, left, theirs, now));
  }

  lemma OfferKeepsBook(cfg: Config, b: Book, p: PeerId, a: Multiaddr, src: AddressSource, now: int)
    ensures BookOk(cfg, b) ==> BookOk(cfg, AddAddress(cfg, b, p, a, src, now))
  {
    StepKeepsBook(cfg, Sys(b, multiset{}, map[]), Offered(p, a, src, now));
  }

  lemma FailureKeepsBook(cfg: Config, b: Book, h: Handler, peer: Option<PeerId>, err: DialFault, now: int)
    requires h.own.Some? ==> h.own.value.retries <= SIM_OPEN_RETRIES + 1
    ensures BookOk(cfg, b) ==> BookOk(cfg, FailDial(cfg, b, h, peer, err, now))
  {
    var d := Dialling(cfg.local, false, [], h);
    StepKeepsBook(cfg, Sys(b, multiset{d}, map[]), Failed(d, peer, err, now));
  }

  /** Every state reachable from the empty book is well formed. */
  lemma {:induction false} ReachableWellFormed(cfg: Config, s: Sys, steps: seq<Step>)
    requires Legal(cfg, s, steps) && WellFormed(cfg, s)
    ensures WellFormed(cfg, EMPTY)
    ensures WellFormed(cfg, After(cfg, s, steps))
    decreases |steps|
  {
    if steps == [] {
    } else {
      StaysWellFormed(cfg, s, steps[0]);
      ReachableWellFormed(cfg, Apply(cfg, s, steps[0]), steps[1..]);
    }
  }
}
