/** What the address book announces, step by step and over whole runs. */
module Announcements {
  import opened Options
  import opened Multiaddrs
  import opened PeerInfos
  import opened Books
  import opened Swarms
  import opened Effects

  // ---------- step by step ----------

  /** An accepted offer announces a discovery if it confirms a peer without confirmed addresses, and new information. */
  ghost function OfferEvents(cfg: Config, b: Book, p: PeerId, a: Multiaddr, src: AddressSource): seq<Event> {
    if Refused(cfg, b, p, a) then []
    else
      var confirms := src.Candidate? || src.User? || src.Dial?;
      (if confirms && !HasConfirmed(PeerOf(b, p).addresses) then [Discovered(p)] else []) + [NewInfo(p)]
  }

  /** A failure charged to a known peer is announced address by address, or as the peer being unreachable. */
  ghost function FailureEvents(b: Book, h: Handler, p: PeerId, err: DialFault): seq<Event> {
    if p !in b.peers then []
    else if h.own.Some? then [DialFailure(p, h.own.value.addr), NewInfo(p)]
    else match err
      case Transport(errors) =>
        seq(|errors|, i requires 0 <= i < |errors| => DialFailure(p, errors[i].0))
        + (if SomeSimOpen(err) then [] else [Unreachable(p)]) + [NewInfo(p)]
      case ConditionFalse => []
      case Banned => []
      case LocalPeerId => []
      case _ => [Unreachable(p)]
  }

  /** The peer a failure is charged to, if any. */
  function Charged(h: Handler, peer: Option<PeerId>): Option<PeerId> {
    if h.own.Some? && AddrPeer(h.own.value.addr).Some? then AddrPeer(h.own.value.addr) else peer
  }

  ghost function ChargedEvents(b: Book, h: Handler, peer: Option<PeerId>, err: DialFault): seq<Event> {
    if Charged(h, peer).Some? then FailureEvents(b, h, Charged(h, peer).value, err) else []
  }

  function RemoteOf(cp: Endpoint, p: PeerId): Multiaddr {
    Normalize(if cp.Dialer? then cp.address else cp.sendBackAddr, p)
  }

  /** Everything a step announces, in order. */
  ghost function Announced(cfg: Config, s: Sys, step: Step): seq<Event>
    requires Possible(cfg, s, step)
  {
    match step
    case Offered(p, a, src, _) => OfferEvents(cfg, s.book, p, a, src)
    case Opened(_, _, p, cp, others, _) =>
      OfferEvents(cfg, s.book, p, RemoteOf(cp, p), if cp.Dialer? then Dial else Incoming)
      + ((if others == 0 then [Connected(p)] else [])
         + [ConnectionEstablished(p, NormalizeEndpoint(cp, cfg.local, p))])
    case Moved(id, cp, _) =>
      var p := s.live[id].peer;
      OfferEvents(cfg, s.book, p, RemoteOf(cp, p), if cp.Dialer? then Dial else Incoming)
      + [AddressChanged(p, NormalizeEndpoint(s.live[id].cp, cfg.local, p), NormalizeEndpoint(cp, cfg.local, p))]
    case Closed(id, left, _, _) =>
      var p := s.live[id].peer;
      [ConnectionClosed(p, NormalizeEndpoint(s.live[id].cp, cfg.local, p))]
      + (if left == 0 then [Disconnected(p)] else []) + [NewInfo(p)]
    case CmdPrune(_, _, visit) => seq(|visit|, i requires 0 <= i < |visit| => NewInfo(visit[i]))
    case GotIdentify(p, _, _, _) => if p in s.book.peers then [NewInfo(p)] else []
    case GotPing(p, _) => if p in s.book.peers then [NewInfo(p)] else []
    case Failed(d, peer, err, _) => ChargedEvents(s.book, d.handler, peer, err)
    case ForeignFailed(peer, err, _) => ChargedEvents(s.book, Handler(None, cfg.keepAlive), peer, err)
    case ListenAddr(id, a) => [NewListenAddr(id, a)]
    case ListenExpired(id, a) => [ExpiredListenAddr(id, a)]
    case Notice(e) => [e]
    case _ => []
  }

  lemma OfferAnnounces(cfg: Config, b: Book, p: PeerId, a: Multiaddr, src: AddressSource, now: int)
    ensures AddAddress(cfg, b, p, a, src, now).log == b.log + OfferEvents(cfg, b, p, a, src)
  {
    assert b.log + [] == b.log;
  }

  lemma {:induction false} NoRedials(cfg: Config, p: PeerId, errors: seq<(Multiaddr, bool)>)
    ensures Redials(cfg, p, errors) == [] <==> forall i :: 0 <= i < |errors| ==> !errors[i].1
  {
    if errors == [] {
    } else {
      NoRedials(cfg, p, errors[..|errors| - 1]);
    }
  }

  lemma FailureAnnounces(cfg: Config, b: Book, h: Handler, peer: Option<PeerId>, err: DialFault, now: int)
    ensures FailDial(cfg, b, h, peer, err, now).log == b.log + ChargedEvents(b, h, peer, err)
  {
    assert b.log + [] == b.log;
    if Charged(h, peer).Some? && err.Transport? {
      NoRedials(cfg, Charged(h, peer).value, err.errors);
    }
  }

  lemma OpenAnnounces(cfg: Config, b: Book, p: PeerId, cp: Endpoint, others: nat, now: int)
    ensures Established(cfg, b, p, cp, others, now).log
         == b.log + (OfferEvents(cfg, b, p, RemoteOf(cp, p), if cp.Dialer? then Dial else Incoming)
                     + ((if others == 0 then [Connected(p)] else [])
                        + [ConnectionEstablished(p, NormalizeEndpoint(cp, cfg.local, p))]))
  {
    OfferAnnounces(cfg, b, p, RemoteOf(cp, p), if cp.Dialer? then Dial else Incoming, now);
  }

  lemma MoveAnnounces(cfg: Config, b: Book, p: PeerId, before: Endpoint, cp: Endpoint, now: int)
    ensures ChangeAddress(cfg, b, p, before, cp, now).log
         == b.log + (OfferEvents(cfg, b, p, RemoteOf(cp, p), if cp.Dialer? then Dial else Incoming)
                     + [AddressChanged(p, NormalizeEndpoint(before, cfg.local, p),
                                       NormalizeEndpoint(cp, cfg.local, p))])
  {
    OfferAnnounces(cfg, b, p, RemoteOf(cp, p), if cp.Dialer? then Dial else Incoming, now);
  }

  /** Every step adds exactly these announcements to the log. */
  lemma LogGrows(cfg: Config, s: Sys, step: Step)
    requires Possible(cfg, s, step)
    ensures BookAfter(cfg, s, step).log == s.book.log + Announced(cfg, s, step)
  {
    match step
    case Offered(p, a, src, now) => OfferAnnounces(cfg, s.book, p, a, src, now);
    case Opened(_, _, p, cp, others, now) => OpenAnnounces(cfg, s.book, p, cp, others, now);
    case Moved(id, cp, now) => MoveAnnounces(cfg, s.book, s.live[id].peer, s.live[id].cp, cp, now);
    case Failed(d, peer, err, now) => FailureAnnounces(cfg, s.book, d.handler, peer, err, now);
    case ForeignFailed(peer, err, now) => FailureAnnounces(cfg, s.book, Handler(None, cfg.keepAlive), peer, err, now);
    case _ => OthersAnnounce(cfg, s, step);
  }

  lemma OthersAnnounce(cfg: Config, s: Sys, step: Step)
    requires Possible(cfg, s, step) && !step.Offered? && !step.Opened? && !step.Moved?
    requires !step.Failed? && !step.ForeignFailed?
    ensures BookAfter(cfg, s, step).log == s.book.log + Announced(cfg, s, step)
  {
    assert s.book.log + [] == s.book.log;
  }

  // ---------- connected and disconnected ----------

  /** For each connected or disconnected event of a peer, whether it was connected. */
  function Presence(log: seq<Event>, p: PeerId): seq<bool> {
    if log == [] then []
    else
      var e := log[|log| - 1];
      Presence(log[..|log| - 1], p)
      + (if e == Connected(p) then [true] else if e == Disconnected(p) then [false] else [])
  }

  lemma {:induction false} PresenceAppend(x: seq<Event>, y: seq<Event>, p: PeerId)
    ensures Presence(x + y, p) == Presence(x, p) + Presence(y, p)
  {
    if y == [] {
      assert x + y == x;
    } else {
      assert (x + y)[..|x + y| - 1] == x + y[..|y| - 1];
      PresenceAppend(x, y[..|y| - 1], p);
    }
  }

  lemma {:induction false} NoPresence(x: seq<Event>, p: PeerId)
    requires Connected(p) !in x && Disconnected(p) !in x
    ensures Presence(x, p) == []
  {
    if x == [] {
    } else {
      NoPresence(x[..|x| - 1], p);
      assert x[|x| - 1] in x;
    }
  }

  lemma OnePresence(x: seq<Event>, e: Event, y: seq<Event>, p: PeerId)
    requires Connected(p) !in x && Disconnected(p) !in x && Connected(p) !in y && Disconnected(p) !in y
    ensures Presence(x + [e] + y, p)
         == if e == Connected(p) then [true] else if e == Disconnected(p) then [false] else []
  {
    PresenceAppend(x + [e], y, p);
    PresenceAppend(x, [e], p);
    NoPresence(x, p);
    NoPresence(y, p);
    assert [e][..0] == [];
  }

  /** The step gives the peer its first live connection. */
  ghost predicate Arrives(cfg: Config, s: Sys, step: Step, p: PeerId)
    requires Possible(cfg, s, step)
  {
    LiveTo(s.live, p) == {} && LiveTo(LiveAfter(cfg, s, step), p) != {}
  }

  /** The step takes the peer's last live connection. */
  ghost predicate Departs(cfg: Config, s: Sys, step: Step, p: PeerId)
    requires Possible(cfg, s, step)
  {
    LiveTo(s.live, p) != {} && LiveTo(LiveAfter(cfg, s, step), p) == {}
  }

  lemma LiveToStep(cfg: Config, s: Sys, step: Step, p: PeerId)
    requires Possible(cfg, s, step)
    ensures LiveTo(LiveAfter(cfg, s, step), p) == match step
      case Opened(_, id, q, _, _, _) => LiveTo(s.live, p) + (if p == q then {id} else {})
      case Closed(id, _, _, _) => LiveTo(s.live, p) - {id}
      case _ => LiveTo(s.live, p)
  {}

  lemma OfferSilent(cfg: Config, b: Book, q: PeerId, a: Multiaddr, src: AddressSource, p: PeerId)
    ensures Connected(p) !in OfferEvents(cfg, b, q, a, src) && Disconnected(p) !in OfferEvents(cfg, b, q, a, src)
  {}

  lemma ArrivesIff(cfg: Config, s: Sys, step: Step, p: PeerId)
    requires Enabled(cfg, s, step) && step.Opened?
    ensures Arrives(cfg, s, step, p) <==> p == step.p && step.others == 0
    ensures !Departs(cfg, s, step, p)
  {
    LiveToStep(cfg, s, step, p);
  }

  lemma OpenedPresence(cfg: Config, s: Sys, step: Step, p: PeerId)
    requires Enabled(cfg, s, step) && step.Opened?
    ensures Presence(Announced(cfg, s, step), p) == if p == step.p && step.others == 0 then [true] else []
  {
    var q, cp := step.p, step.cp;
    var src := if cp.Dialer? then Dial else Incoming;
    OfferSilent(cfg, s.book, q, RemoteOf(cp, q), src, p);
    OpenedEvents(OfferEvents(cfg, s.book, q, RemoteOf(cp, q), src), q, step.others,
                 NormalizeEndpoint(cp, cfg.local, q), p);
  }

  lemma OpenedEvents(x: seq<Event>, q: PeerId, others: nat, conn: Endpoint, p: PeerId)
    requires Connected(p) !in x && Disconnected(p) !in x
    ensures Presence(x + ((if others == 0 then [Connected(q)] else []) + [ConnectionEstablished(q, conn)]), p)
         == if p == q && others == 0 then [true] else []
  {
    var y := [ConnectionEstablished(q, conn)];
    if others == 0 {
      assert x + ([Connected(q)] + y) == x + [Connected(q)] + y;
      OnePresence(x, Connected(q), y, p);
    } else {
      assert [] + y == y;
      NoPresence(x + y, p);
    }
  }

  lemma DepartsIff(cfg: Config, s: Sys, step: Step, p: PeerId)
    requires Enabled(cfg, s, step) && step.Closed?
    ensures Departs(cfg, s, step, p) <==> p == s.live[step.id].peer && step.left == 0
    ensures !Arrives(cfg, s, step, p)
  {
    LiveToStep(cfg, s, step, p);
    assert step.id in LiveTo(s.live, s.live[step.id].peer);
    assert LiveTo(LiveAfter(cfg, s, step), p) == LiveTo(s.live - {step.id}, p);
  }

  lemma ClosedPresence(cfg: Config, s: Sys, step: Step, p: PeerId)
    requires Enabled(cfg, s, step) && step.Closed?
    ensures Presence(Announced(cfg, s, step), p)
         == if p == s.live[step.id].peer && step.left == 0 then [false] else []
  {
    var q := s.live[step.id].peer;
    var x := [ConnectionClosed(q, NormalizeEndpoint(s.live[step.id].cp, cfg.local, q))];
    if step.left == 0 {
      assert Announced(cfg, s, step) == x + [Disconnected(q)] + [NewInfo(q)];
      OnePresence(x, Disconnected(q), [NewInfo(q)], p);
    } else {
      assert Announced(cfg, s, step) == x + [NewInfo(q)];
      NoPresence(x + [NewInfo(q)], p);
    }
  }

  lemma FailuresSilent(b: Book, h: Handler, peer: Option<PeerId>, err: DialFault, p: PeerId)
    ensures Connected(p) !in ChargedEvents(b, h, peer, err) && Disconnected(p) !in ChargedEvents(b, h, peer, err)
  {}

  lemma OthersSilent(cfg: Config, s: Sys, step: Step, p: PeerId)
    requires Possible(cfg, s, step) && !step.Opened? && !step.Closed?
    ensures Connected(p) !in Announced(cfg, s, step) && Disconnected(p) !in Announced(cfg, s, step)
  {
    match step
    case Failed(d, peer, err, _) => FailuresSilent(s.book, d.handler, peer, err, p);
    case ForeignFailed(peer, err, _) => FailuresSilent(s.book, Handler(None, cfg.keepAlive), peer, err, p);
    case Offered(q, a, src, _) => OfferSilent(cfg, s.book, q, a, src, p);
    case Moved(id, cp, _) =>
      var q := s.live[id].peer;
      OfferSilent(cfg, s.book, q, RemoteOf(cp, q), if cp.Dialer? then Dial else Incoming, p);
    case _ =>
  }

  /**
   A step announces a peer as connected exactly when it arrives and as disconnected exactly when
   it departs, and once.
   */
  lemma StepPresence(cfg: Config, s: Sys, step: Step, p: PeerId)
    requires Enabled(cfg, s, step)
    ensures Presence(Announced(cfg, s, step), p)
         == if Arrives(cfg, s, step, p) then [true] else if Departs(cfg, s, step, p) then [false] else []
  {
    if step.Opened? {
      ArrivesIff(cfg, s, step, p);
      OpenedPresence(cfg, s, step, p);
    } else if step.Closed? {
      DepartsIff(cfg, s, step, p);
      ClosedPresence(cfg, s, step, p);
    } else {
      LiveToStep(cfg, s, step, p);
      OthersSilent(cfg, s, step, p);
      NoPresence(Announced(cfg, s, step), p);
    }
  }

  predicate Alternates(x: seq<bool>) {
    forall i :: 0 <= i < |x| ==> x[i] == (i % 2 == 0)
  }

  /**
   Connected and disconnected alternate, beginning with connected, and the last one tells
   whether a connection lives.
   */
  ghost predicate InTouch(s: Sys, p: PeerId) {
    && Alternates(Presence(s.book.log, p))
    && (|Presence(s.book.log, p)| % 2 == 1 <==> LiveTo(s.live, p) != {})
  }

  lemma Toggle(x: seq<bool>, was: bool, lives: bool)
    requires Alternates(x) && (|x| % 2 == 1 <==> was)
    ensures var y := x + (if !was && lives then [true] else if was && !lives then [false] else []);
      Alternates(y) && (|y| % 2 == 1 <==> lives)
  {}

  lemma StaysInTouch(cfg: Config, s: Sys, step: Step, p: PeerId)
    requires Enabled(cfg, s, step) && InTouch(s, p)
    ensures InTouch(Apply(cfg, s, step), p)
  {
    LogGrows(cfg, s, step);
    StepPresence(cfg, s, step, p);
    PresenceAppend(s.book.log, Announced(cfg, s, step), p);
    Toggle(Presence(s.book.log, p), LiveTo(s.live, p) != {}, LiveTo(LiveAfter(cfg, s, step), p) != {});
  }

  /** Over every run from the empty book, the announcements of every peer alternate and follow its live connections. */
  lemma {:induction false} PresenceFollowsConnections(cfg: Config, s: Sys, steps: seq<Step>, p: PeerId)
    requires Legal(cfg, s, steps) && InTouch(s, p)
    ensures InTouch(EMPTY, p)
    ensures InTouch(After(cfg, s, steps), p)
    decreases |steps|
  {
    if steps == [] {
    } else {
      StaysInTouch(cfg, s, steps[0], p);
      PresenceFollowsConnections(cfg, Apply(cfg, s, steps[0]), steps[1..], p);
    }
  }
}
