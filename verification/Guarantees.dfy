/** Promises about single addresses, peers and connections over whole runs. */
module Guarantees {
  import opened Options
  import opened Multiaddrs
  import opened PeerInfos
  import opened Books
  import opened Translation
  import opened Swarms
  import opened Reachable

  // ---------- confirmed addresses are durable ----------

  /** Known from the user or from a successful dial. */
  predicate Firm(b: Book, p: PeerId, a: Multiaddr) {
    a in TableOf(b, p) && (TableOf(b, p)[a].source.User? || TableOf(b, p)[a].source.Dial?)
  }

  predicate Spares(step: Step, p: PeerId, a: Multiaddr) {
    && !(step.CmdRemove? && step.p == p && Normalize(step.a, p) == a)
    && !WrongPeer(step, p, a)
  }

  lemma WrongPeerRemoves(cfg: Config, s: Sys, step: Step, p: PeerId, a: Multiaddr)
    requires Possible(cfg, s, step) && WrongPeer(step, p, a) && p in s.book.peers
    ensures a !in TableOf(BookAfter(cfg, s, step), p)
  {
    assert BookAfter(cfg, s, step)
        == ProbeFailed(s.book, p, step.d.handler.own.value, step.d.handler.keepAlive, step.err, step.now);
  }

  lemma FirmMoves(cfg: Config, s: Sys, step: Step, p: PeerId, a: Multiaddr, t: Table, t': Table)
    requires Possible(cfg, s, step) && TableMove(cfg, s, step, p, t, t') && !WrongPeer(step, p, a)
    requires a in t && (t[a].source.User? || t[a].source.Dial?)
    ensures if Spares(step, p, a) then a in t' && t[a].source.Rank() <= t'[a].source.Rank() else a !in t'
  {
    DropIncomingFacts(t);
  }

  /**
   A firm address leaves the table by its explicit removal or a wrong peer answering its
   validation dial, and by nothing else.
   */
  lemma FirmStep(cfg: Config, s: Sys, step: Step, p: PeerId, a: Multiaddr)
    requires Possible(cfg, s, step) && Firm(s.book, p, a)
    ensures var b' := BookAfter(cfg, s, step);
      if Spares(step, p, a)
      then Firm(b', p, a) && TableOf(s.book, p)[a].source.Rank() <= TableOf(b', p)[a].source.Rank()
      else a !in TableOf(b', p)
  {
    if WrongPeer(step, p, a) {
      WrongPeerRemoves(cfg, s, step, p, a);
    } else {
      StepMoves(cfg, s, step, p);
      FirmMoves(cfg, s, step, p, a, TableOf(s.book, p), TableOf(BookAfter(cfg, s, step), p));
    }
  }

  /** Over any run that spares it, a firm address stays and its source never goes down. */
  lemma {:induction false} FirmIsDurable(cfg: Config, s: Sys, steps: seq<Step>, p: PeerId, a: Multiaddr)
    requires Legal(cfg, s, steps) && Firm(s.book, p, a)
    requires forall i :: 0 <= i < |steps| ==> Spares(steps[i], p, a)
    ensures var b' := After(cfg, s, steps).book;
      Firm(b', p, a) && TableOf(s.book, p)[a].source.Rank() <= TableOf(b', p)[a].source.Rank()
    decreases |steps|
  {
    if steps == [] {
    } else {
      FirmStep(cfg, s, steps[0], p, a);
      FirmIsDurable(cfg, Apply(cfg, s, steps[0]), steps[1..], p, a);
    }
  }

  // ---------- at most four validation dials per address ----------

  /** How far an address has climbed through the sources that ask for a dial; incoming counts as unknown. */
  function Climbed(t: Table, a: Multiaddr): nat {
    if a !in t then 0 else if t[a].source.Rank() < 4 then t[a].source.Rank() else 4
  }

  /** Some step removed a, which was known better than as an incoming address. */
  predicate Lost(t: Table, t': Table, a: Multiaddr) {
    a in t && !t[a].source.Incoming? && a !in t'
  }

  /** The validation dials for a that a step put on the queue. */
  ghost function Validations(cfg: Config, s: Sys, step: Step, p: PeerId, a: Multiaddr): nat
    requires Possible(cfg, s, step)
  {
    var n, q := |s.book.actions|, BookAfter(cfg, s, step).actions;
    if n <= |q| then
      multiset(q[n..])[ValidationDial(p, a, SIM_OPEN_RETRIES + 1)]
        + multiset(q[n..])[ValidationDial(p, a, IDENTIFY_RETRIES)]
    else 0
  }

  lemma OfferedValidations(cfg: Config, s: Sys, step: Step, p: PeerId, a: Multiaddr)
    requires Possible(cfg, s, step) && step.Offered?
    ensures Validations(cfg, s, step, p, a) + Climbed(TableOf(s.book, p), a)
         <= Climbed(TableOf(BookAfter(cfg, s, step), p), a)
  {
    AddAddressMoves(cfg, s.book, step.p, step.a, step.src, step.now, p);
    NormalizeFacts(step.a, step.p, step.p);
    var full := Normalize(step.a, step.p);
    var d := ValidationDial(step.p, full, SIM_OPEN_RETRIES + 1);
    OfferQueues(cfg, s.book, step.p, step.a, step.src, step.now, d);
    assert multiset([d]) == multiset{d};
  }

  lemma OfferQueues(cfg: Config, b: Book, p: PeerId, a: Multiaddr, src: AddressSource, now: int, d: Dialling)
    requires d == ValidationDial(p, Normalize(a, p), SIM_OPEN_RETRIES + 1)
    ensures var q := AddAddress(cfg, b, p, a, src, now).actions;
      && |b.actions| <= |q|
      && (q[|b.actions|..] == []
          || (q[|b.actions|..] == [d] && Admissible(cfg, b, p, a)
            && Probes(PeerOf(b, p).addresses, Normalize(a, p), src)))
  {}

  lemma IdentifyValidations(cfg: Config, s: Sys, step: Step, p: PeerId, a: Multiaddr)
    requires Possible(cfg, s, step) && step.GotIdentify?
    ensures Validations(cfg, s, step, p, a) + Climbed(TableOf(s.book, p), a)
         <= Climbed(TableOf(BookAfter(cfg, s, step), p), a)
  {
    var q := step.p;
    if q in s.book.peers {
      SetInfoClosedForm(cfg, s.book, q, step.ident, step.order, step.now);
      DropIncomingFacts(TableOf(s.book, q));
    } else {
      assert BookAfter(cfg, s, step).actions[|s.book.actions|..] == [];
    }
  }

  lemma CommandValidations(cfg: Config, s: Sys, step: Step, p: PeerId, a: Multiaddr)
    requires Possible(cfg, s, step) && (step.CmdDial? || step.CmdDialAddress?)
    ensures Validations(cfg, s, step, p, a) == 0
  {
    var n, q := |s.book.actions|, BookAfter(cfg, s, step).actions;
    assert q[n..] == [] || (|q[n..]| == 1 && !q[n..][0].always);
  }

  lemma OtherValidations(cfg: Config, s: Sys, step: Step, p: PeerId, a: Multiaddr)
    requires Possible(cfg, s, step) && !step.Offered? && !step.GotIdentify?
    ensures Validations(cfg, s, step, p, a) == 0
  {
    var n, q := |s.book.actions|, BookAfter(cfg, s, step).actions;
    if Calm(step) {
      CalmQueues(cfg, s, step);
      assert q[n..] == [];
    } else if step.CmdDial? || step.CmdDialAddress? {
      CommandValidations(cfg, s, step, p, a);
    } else if step.Failed? || step.ForeignFailed? {
      assert q == s.book.actions;
      assert q[n..] == [];
    } else {
      assert |q| < n || q[n..] == [];
    }
  }

  /** Each validation dial pays for a step up; only losing the address gives the steps back. */
  lemma ValidationsClimb(cfg: Config, s: Sys, step: Step, p: PeerId, a: Multiaddr)
    requires Possible(cfg, s, step)
    requires !Lost(TableOf(s.book, p), TableOf(BookAfter(cfg, s, step), p), a)
    ensures Validations(cfg, s, step, p, a) + Climbed(TableOf(s.book, p), a)
         <= Climbed(TableOf(BookAfter(cfg, s, step), p), a)
  {
    if step.Offered? {
      OfferedValidations(cfg, s, step, p, a);
    } else if step.GotIdentify? {
      IdentifyValidations(cfg, s, step, p, a);
    } else {
      OtherValidations(cfg, s, step, p, a);
      StepMoves(cfg, s, step, p);
    }
  }

  ghost predicate NeverLost(cfg: Config, s: Sys, steps: seq<Step>, p: PeerId, a: Multiaddr)
    requires Legal(cfg, s, steps)
    decreases |steps|
  {
    steps == [] ||
    var s' := Apply(cfg, s, steps[0]);
    !Lost(TableOf(s.book, p), TableOf(s'.book, p), a) && NeverLost(cfg, s', steps[1..], p, a)
  }

  ghost function TotalValidations(cfg: Config, s: Sys, steps: seq<Step>, p: PeerId, a: Multiaddr): nat
    requires Legal(cfg, s, steps)
    decreases |steps|
  {
    if steps == [] then 0
    else Validations(cfg, s, steps[0], p, a) + TotalValidations(cfg, Apply(cfg, s, steps[0]), steps[1..], p, a)
  }

  /** Between two removals of an address, offers and Identify messages together dial it at most four times. */
  lemma {:induction false} AtMostFourValidations(cfg: Config, s: Sys, steps: seq<Step>, p: PeerId, a: Multiaddr)
    requires Legal(cfg, s, steps) && NeverLost(cfg, s, steps, p, a)
    ensures TotalValidations(cfg, s, steps, p, a) + Climbed(TableOf(s.book, p), a)
         <= Climbed(TableOf(After(cfg, s, steps).book, p), a) <= 4
    decreases |steps|
  {
    if steps == [] {
    } else {
      ValidationsClimb(cfg, s, steps[0], p, a);
      AtMostFourValidations(cfg, Apply(cfg, s, steps[0]), steps[1..], p, a);
    }
  }

  // ---------- Discovered marks real transitions ----------

  ghost predicate Emits(cfg: Config, s: Sys, step: Step, e: Event)
    requires Possible(cfg, s, step)
  {
    e in BookAfter(cfg, s, step).log[|s.book.log|..]
  }

  lemma ConfirmedByIngest(t: Table, a: Multiaddr, src: AddressSource, now: int)
    requires !HasConfirmed(t)
    ensures HasConfirmed(Ingest(t, a, src, now)) <==> src.IsConfirmed()
  {
    var t' := Ingest(t, a, src, now);
    assert a in t';
  }

  lemma AddAddressLog(cfg: Config, b: Book, q: PeerId, a: Multiaddr, src: AddressSource, now: int)
    ensures var b' := AddAddress(cfg, b, q, a, src, now);
      && |b.log| <= |b'.log|
      && b'.log[|b.log|..]
         == if !Admissible(cfg, b, q, a) then []
            else (if !HasConfirmed(TableOf(b, q)) && src.IsConfirmed() then [Discovered(q)] else []) + [NewInfo(q)]
  {}

  /** Adding an address announces a discovery exactly when it gives the peer its first confirmed address. */
  lemma AddAddressDiscovers(cfg: Config, b: Book, q: PeerId, a: Multiaddr, src: AddressSource, now: int, p: PeerId)
    ensures var b' := AddAddress(cfg, b, q, a, src, now);
      && |b.log| <= |b'.log|
      && (Discovered(p) in b'.log[|b.log|..] <==> !HasConfirmed(TableOf(b, p)) && HasConfirmed(TableOf(b', p)))
  {
    AddAddressLog(cfg, b, q, a, src, now);
    AddAddressMoves(cfg, b, q, a, src, now, p);
    if Offers(cfg, b, p, q, a) && !HasConfirmed(TableOf(b, p)) {
      ConfirmedByIngest(TableOf(b, p), Normalize(a, q), src, now);
    }
  }

  /** Every step that goes through adding an address: an offer, and connections that open or move. */
  predicate Adds(step: Step) {
    step.Offered? || step.Opened? || step.Moved?
  }

  lemma EstablishedDiscovers(cfg: Config, b: Book, q: PeerId, cp: Endpoint, others: nat, now: int, p: PeerId)
    ensures var b' := Established(cfg, b, q, cp, others, now);
      && |b.log| <= |b'.log|
      && (Discovered(p) in b'.log[|b.log|..] <==> !HasConfirmed(TableOf(b, p)) && HasConfirmed(TableOf(b', p)))
  {
    var a := RemoteAddress(NormalizeEndpoint(cp, cfg.local, q));
    var b', mid := Established(cfg, b, q, cp, others, now), AddAddress(cfg, b, q, a, SourceOf(cp), now);
    AddAddressDiscovers(cfg, b, q, a, SourceOf(cp), now, p);
    assert mid.log == b'.log[..|mid.log|];
    TailSplits(b.log, mid.log, b'.log, Discovered(p));
    assert TableOf(b', p) == TableOf(mid, p);
  }

  lemma ChangeAddressDiscovers(cfg: Config, b: Book, q: PeerId, before: Endpoint, cp: Endpoint, now: int, p: PeerId)
    ensures var b' := ChangeAddress(cfg, b, q, before, cp, now);
      && |b.log| <= |b'.log|
      && (Discovered(p) in b'.log[|b.log|..] <==> !HasConfirmed(TableOf(b, p)) && HasConfirmed(TableOf(b', p)))
  {
    var a := RemoteAddress(NormalizeEndpoint(cp, cfg.local, q));
    var b', mid := ChangeAddress(cfg, b, q, before, cp, now), AddAddress(cfg, b, q, a, SourceOf(cp), now);
    AddAddressDiscovers(cfg, b, q, a, SourceOf(cp), now, p);
    assert mid.log == b'.log[..|mid.log|];
    TailSplits(b.log, mid.log, b'.log, Discovered(p));
    assert TableOf(b', p) == TableOf(mid, p);
  }

  lemma AddsDiscover(cfg: Config, s: Sys, step: Step, p: PeerId)
    requires Possible(cfg, s, step) && Adds(step)
    ensures |s.book.log| <= |BookAfter(cfg, s, step).log|
    ensures Emits(cfg, s, step, Discovered(p))
       <==> !HasConfirmed(TableOf(s.book, p)) && HasConfirmed(TableOf(BookAfter(cfg, s, step), p))
  {
    match step
    case Offered(q, a, src, now) => AddAddressDiscovers(cfg, s.book, q, a, src, now, p);
    case Opened(_, _, q, cp, others, now) => EstablishedDiscovers(cfg, s.book, q, cp, others, now, p);
    case Moved(id, cp, now) => ChangeAddressDiscovers(cfg, s.book, s.live[id].peer, s.live[id].cp, cp, now, p);
  }

  lemma TailSplits(x: seq<Event>, y: seq<Event>, z: seq<Event>, e: Event)
    requires |x| <= |y| <= |z| && z[..|y|] == y
    requires e !in z[|y|..]
    ensures e in z[|x|..] <==> e in y[|x|..]
  {
    assert z[|x|..] == y[|x|..] + z[|y|..];
  }

  lemma FailuresDoNotDiscover(cfg: Config, b: Book, h: Handler, peer: Option<PeerId>, err: DialFault, now: int,
                              p: PeerId)
    ensures var log := FailDial(cfg, b, h, peer, err, now).log;
      |b.log| <= |log| && Discovered(p) !in log[|b.log|..]
  {
    var who := Blamed(h, peer);
    if who.Some? && who.value in b.peers && h.own.None? && err.Transport? {
      assert Discovered(p) !in DialFailures(who.value, err.errors);
    }
  }

  lemma OthersDoNotDiscover(cfg: Config, s: Sys, step: Step, p: PeerId)
    requires Possible(cfg, s, step) && !Adds(step)
    ensures |s.book.log| <= |BookAfter(cfg, s, step).log|
    ensures !Emits(cfg, s, step, Discovered(p))
  {
    match step
    case Failed(d, peer, err, now) => FailuresDoNotDiscover(cfg, s.book, d.handler, peer, err, now, p);
    case ForeignFailed(peer, err, now) =>
      FailuresDoNotDiscover(cfg, s.book, Handler(None, cfg.keepAlive), peer, err, now, p);
    case CmdPrune(_, _, visit) => assert Discovered(p) !in NewInfos(visit);
    case GotIdentify(_, _, _, _) =>
    case Closed(_, _, _, _) =>
    case _ => QuietLog(cfg, s, step, p);
  }

  lemma QuietLog(cfg: Config, s: Sys, step: Step, p: PeerId)
    requires Possible(cfg, s, step) && (Idle(step) || step.CmdDialAddress? || step.GotPing? || step.CmdRemove?)
    ensures var log := BookAfter(cfg, s, step).log; |s.book.log| <= |log| && Discovered(p) !in log[|s.book.log|..]
  {}

  /**
   The step that announces a discovery takes the peer from no confirmed address to at least one,
   and the only steps that do so unannounced are Identify messages under port reuse.
   */
  lemma DiscoveredMarksTransition(cfg: Config, s: Sys, step: Step, p: PeerId)
    requires Possible(cfg, s, step)
    ensures |s.book.log| <= |BookAfter(cfg, s, step).log|
    ensures var first := !HasConfirmed(TableOf(s.book, p)) && HasConfirmed(TableOf(BookAfter(cfg, s, step), p));
      && (Emits(cfg, s, step, Discovered(p)) ==> first)
      && (first && !Emits(cfg, s, step, Discovered(p)) ==> step.GotIdentify? && cfg.portReuse)
  {
    if Adds(step) {
      AddsDiscover(cfg, s, step, p);
    } else {
      OthersDoNotDiscover(cfg, s, step, p);
      StepMoves(cfg, s, step, p);
      if step.GotIdentify? {
        DropIncomingFacts(TableOf(s.book, p));
      }
    }
  }

  /**
   An Identify message under port reuse suggests an address that we hold a connection to, that is
   not one of our listeners, and that the table does not know better than as an incoming one.
   */
  ghost predicate ConfirmsSilently(cfg: Config, b: Book, step: Step, p: PeerId) {
    && step.GotIdentify? && step.p == p && p in b.peers && cfg.portReuse
    && var info := Identified(b.peers[p], step.ident);
       exists a :: a in Taken(b.listeners, Suggested(cfg, info, p)) && a in info.connections
         && a !in DropIncoming(info.addresses)
  }

  lemma IdentifyConfirms(cfg: Config, s: Sys, step: Step, p: PeerId)
    requires Possible(cfg, s, step) && step.GotIdentify? && !HasConfirmed(TableOf(s.book, p))
    ensures HasConfirmed(TableOf(BookAfter(cfg, s, step), p)) <==> ConfirmsSilently(cfg, s.book, step, p)
  {
    StepMoves(cfg, s, step, p);
    if step.p == p && p in s.book.peers {
      var info := Identified(s.book.peers[p], step.ident);
      var t, t' := DropIncoming(info.addresses), TableOf(BookAfter(cfg, s, step), p);
      DropIncomingFacts(info.addresses);
      if a :| a in t' && t'[a].source.IsConfirmed() {
        assert a !in t && a in info.connections;
      }
      if a :| a in Taken(s.book.listeners, Suggested(cfg, info, p)) && a in info.connections && a !in t {
        assert cfg.portReuse ==> a in t' && t'[a].source == Candidate;
      }
    }
  }

  /** A step gives a peer its first confirmed address unannounced if and only if it is such an Identify message. */
  lemma UnannouncedIff(cfg: Config, s: Sys, step: Step, p: PeerId)
    requires Possible(cfg, s, step) && !HasConfirmed(TableOf(s.book, p))
    ensures |s.book.log| <= |BookAfter(cfg, s, step).log|
    ensures HasConfirmed(TableOf(BookAfter(cfg, s, step), p)) && !Emits(cfg, s, step, Discovered(p))
       <==> ConfirmsSilently(cfg, s.book, step, p)
  {
    if Adds(step) {
      AddsDiscover(cfg, s, step, p);
    } else {
      DiscoveredMarksTransition(cfg, s, step, p);
      OthersDoNotDiscover(cfg, s, step, p);
      if step.GotIdentify? {
        IdentifyConfirms(cfg, s, step, p);
      }
    }
  }

  /** The peer connects to us from an address, and then advertises that address. */
  function SilentRun(p: PeerId, ours: Multiaddr, theirs: Multiaddr): seq<Step> {
    [Opened(None, 1, p, Listener(ours, theirs), 0, 0),
     GotIdentify(p, Identify("", "", [], [theirs]), [Normalize(theirs, p)], 0)]
  }

  lemma SilentSuggestion(cfg: Config, i: Info, p: PeerId, theirs: Multiaddr)
    requires !IsLoopback(theirs) && i.listeners == [theirs]
    requires i.connections.Keys == {Normalize(theirs, p)} && i.addresses.Keys <= {Normalize(theirs, p)}
    ensures Suggested(cfg, i, p) == {Normalize(theirs, p)}
  {
    assert theirs in i.listeners;
    assert ListenPorts(i, p) == {};
    assert Translated(i, p) <= {Normalize(theirs, p)};
    assert Advertised(cfg, i, p) == {Normalize(theirs, p)};
  }

  /** From the empty book, under port reuse, it takes these two steps to confirm a peer that is never announced. */
  lemma SilentConfirmation(cfg: Config, p: PeerId, ours: Multiaddr, theirs: Multiaddr)
    requires cfg.portReuse && p != cfg.local && !IsLoopback(theirs)
    ensures Legal(cfg, EMPTY, SilentRun(p, ours, theirs))
    ensures var s := After(cfg, EMPTY, SilentRun(p, ours, theirs));
      HasConfirmed(TableOf(s.book, p)) && Discovered(p) !in s.book.log
  {
    var x, y := SilentRun(p, ours, theirs)[0], SilentRun(p, ours, theirs)[1];
    SilentFirst(cfg, p, ours, theirs);
    var s := Apply(cfg, EMPTY, x);
    SilentSecond(cfg, s, p, theirs, y);
    OneStep(cfg, s, y);
    FirstStep(cfg, EMPTY, x, [y]);
    assert SilentRun(p, ours, theirs) == [x] + [y];
  }

  lemma SilentFirst(cfg: Config, p: PeerId, ours: Multiaddr, theirs: Multiaddr)
    requires p != cfg.local && !IsLoopback(theirs)
    ensures Enabled(cfg, EMPTY, SilentRun(p, ours, theirs)[0])
    ensures var b := BookAfter(cfg, EMPTY, SilentRun(p, ours, theirs)[0]);
      && b.listeners == {} && p in b.peers && Discovered(p) !in b.log
      && TableOf(b, p) == map[Normalize(theirs, p) := Entry(Incoming, 0)]
      && ConnectionsOf(b, p) == {Normalize(theirs, p)}
  {
    NormalizeFacts(theirs, p, p);
    assert LiveTo(EMPTY.live, p) == {};
    EstablishedMoves(cfg, EMPTY.book, p, Listener(ours, theirs), 0, 0, p);
  }

  lemma SilentSecond(cfg: Config, s: Sys, p: PeerId, theirs: Multiaddr, step: Step)
    requires cfg.portReuse && !IsLoopback(theirs) && s.book.listeners == {} && p in s.book.peers
    requires TableOf(s.book, p) == map[Normalize(theirs, p) := Entry(Incoming, 0)]
    requires ConnectionsOf(s.book, p) == {Normalize(theirs, p)} && Discovered(p) !in s.book.log
    requires step == GotIdentify(p, Identify("", "", [], [theirs]), [Normalize(theirs, p)], 0)
    ensures Possible(cfg, s, step)
    ensures var b := BookAfter(cfg, s, step); HasConfirmed(TableOf(b, p)) && Discovered(p) !in b.log
  {
    var info := Identified(s.book.peers[p], step.ident);
    var a := Normalize(theirs, p);
    SilentSuggestion(cfg, info, p, theirs);
    assert Enumerates(step.order, {a});
    assert a in Taken(s.book.listeners, Suggested(cfg, info, p)) && a in info.connections;
    assert a !in DropIncoming(info.addresses);
    UnannouncedIff(cfg, s, step, p);
    var b := BookAfter(cfg, s, step);
    assert b.log == s.book.log + [NewInfo(p)];
  }

  /**
   Of a run that begins and ends by announcing the same peer, some state in between had lost all
   its confirmed addresses.
   */
  lemma BetweenDiscoveries(cfg: Config, s: Sys, steps: seq<Step>, p: PeerId, last: Step)
    requires steps != [] && Legal(cfg, s, steps) && Possible(cfg, After(cfg, s, steps), last)
    requires Emits(cfg, s, steps[0], Discovered(p)) && Emits(cfg, After(cfg, s, steps), last, Discovered(p))
    ensures HasConfirmed(TableOf(Apply(cfg, s, steps[0]).book, p))
    ensures !HasConfirmed(TableOf(After(cfg, s, steps).book, p))
    ensures |steps| >= 2
  {
    DiscoveredMarksTransition(cfg, s, steps[0], p);
    DiscoveredMarksTransition(cfg, After(cfg, s, steps), last, p);
    assert After(cfg, s, steps) == After(cfg, Apply(cfg, s, steps[0]), steps[1..]);
  }

  // ---------- the connection table refines the swarm ----------

  function AddressesIn(cfg: Config, live: map<int, Connection>, p: PeerId): set<Multiaddr> {
    set id | id in live && live[id].peer == p :: Remote(cfg, live[id])
  }

  function LiveAddresses(cfg: Config, s: Sys, p: PeerId): set<Multiaddr> {
    AddressesIn(cfg, s.live, p)
  }

  ghost predicate Refines(cfg: Config, s: Sys) {
    forall p :: ConnectionsOf(s.book, p) <= LiveAddresses(cfg, s, p)
  }

  ghost predicate InSync(cfg: Config, s: Sys) {
    forall p :: ConnectionsOf(s.book, p) == LiveAddresses(cfg, s, p)
  }

  /** Another live connection to the same peer is filed under the same address. */
  ghost predicate Shared(cfg: Config, s: Sys, id: int)
    requires id in s.live
  {
    exists j :: j in s.live && j != id
      && s.live[j].peer == s.live[id].peer && Remote(cfg, s.live[j]) == Remote(cfg, s.live[id])
  }

  lemma AddConnection(cfg: Config, live: map<int, Connection>, id: int, c: Connection, p: PeerId)
    requires id !in live
    ensures AddressesIn(cfg, live[id := c], p)
      == AddressesIn(cfg, live, p) + (if c.peer == p then {Remote(cfg, c)} else {})
  {
    var live' := live[id := c];
    assert forall i :: i in live ==> i in live' && live'[i] == live[i];
    assert id in live';
  }

  lemma DropConnection(cfg: Config, s: Sys, id: int, p: PeerId)
    requires id in s.live
    ensures AddressesIn(cfg, s.live - {id}, p)
         == if p != s.live[id].peer || Shared(cfg, s, id) then AddressesIn(cfg, s.live, p)
            else AddressesIn(cfg, s.live, p) - {Remote(cfg, s.live[id])}
  {
    var live' := s.live - {id};
    assert forall i :: i in s.live && i != id ==> i in live' && live'[i] == s.live[i];
  }

  lemma LiveStep(cfg: Config, s: Sys, step: Step, p: PeerId)
    requires Possible(cfg, s, step)
    ensures var l, l' := AddressesIn(cfg, s.live, p), AddressesIn(cfg, LiveAfter(cfg, s, step), p);
      match step
      case Opened(_, _, q, cp, _, _) => l' == l + (if p == q then {Remote(cfg, Connection(q, cp))} else {})
      case Moved(id, cp, _) =>
        if p != s.live[id].peer then l' == l
        else l' == (if Shared(cfg, s, id) then l else l - {Remote(cfg, s.live[id])}) + {Remote(cfg, Connection(p, cp))}
      case Closed(id, _, _, _) =>
        l' == if p != s.live[id].peer || Shared(cfg, s, id) then l else l - {Remote(cfg, s.live[id])}
      case _ => l' == l
  {
    match step
    case Opened(_, id, q, cp, _, _) => AddConnection(cfg, s.live, id, Connection(q, cp), p);
    case Moved(id, cp, _) =>
      var c := Connection(s.live[id].peer, cp);
      DropConnection(cfg, s, id, p);
      AddConnection(cfg, s.live - {id}, id, c, p);
      assert (s.live - {id})[id := c] == s.live[id := c];
    case Closed(id, _, _, _) => DropConnection(cfg, s, id, p);
    case _ =>
  }

  /** The table never names a connection the swarm does not have. */
  lemma {:induction false} ConnectionsRefineSwarm(cfg: Config, s: Sys, steps: seq<Step>)
    requires Legal(cfg, s, steps) && Refines(cfg, s)
    ensures Refines(cfg, EMPTY)
    ensures Refines(cfg, After(cfg, s, steps))
    decreases |steps|
  {
    if steps == [] {
    } else {
      var s' := Apply(cfg, s, steps[0]);
      forall p ensures ConnectionsOf(s'.book, p) <= LiveAddresses(cfg, s', p) {
        StepConnections(cfg, s, steps[0], p);
        LiveStep(cfg, s, steps[0], p);
      }
      ConnectionsRefineSwarm(cfg, Apply(cfg, s, steps[0]), steps[1..]);
    }
  }

  /** The step takes the address of a connection that another connection shares. */
  ghost predicate Clashes(cfg: Config, s: Sys, step: Step)
    requires Possible(cfg, s, step)
  {
    match step
    case Moved(id, cp, _) => Shared(cfg, s, id)
      && Remote(cfg, Connection(s.live[id].peer, cp)) != Remote(cfg, s.live[id])
    case Closed(id, _, _, _) => Shared(cfg, s, id)
    case _ => false
  }

  /** From a state in sync, a step stays in sync if and only if it does not take a shared address. */
  lemma SyncStep(cfg: Config, s: Sys, step: Step)
    requires Possible(cfg, s, step) && InSync(cfg, s)
    ensures InSync(cfg, Apply(cfg, s, step)) <==> !Clashes(cfg, s, step)
  {
    var s' := Apply(cfg, s, step);
    forall p
      ensures !Clashes(cfg, s, step) ==> ConnectionsOf(s'.book, p) == LiveAddresses(cfg, s', p)
    {
      StepConnections(cfg, s, step, p);
      LiveStep(cfg, s, step, p);
    }
    if Clashes(cfg, s, step) {
      var p := s.live[step.id].peer;
      StepConnections(cfg, s, step, p);
      LiveStep(cfg, s, step, p);
      assert Remote(cfg, s.live[step.id]) in LiveAddresses(cfg, s, p);
      assert ConnectionsOf(s'.book, p) != LiveAddresses(cfg, s', p);
    }
  }

  /** Two connections to a peer at the same address, one of which is closed. */
  function ClashingRun(p: PeerId, a: Multiaddr): seq<Step> {
    [Opened(None, 1, p, Dialer(a, false), 0, 0), Opened(None, 2, p, Dialer(a, false), 1, 0), Closed(1, 1, true, 0)]
  }

  /** From the empty book that run is legal and leaves a live connection that the table does not name. */
  lemma ClashIsReachable(cfg: Config, p: PeerId, a: Multiaddr)
    requires p != cfg.local
    ensures Legal(cfg, EMPTY, ClashingRun(p, a)) && !InSync(cfg, After(cfg, EMPTY, ClashingRun(p, a)))
  {
    var run := ClashingRun(p, a);
    var s1 := Apply(cfg, EMPTY, run[0]);
    SyncStep(cfg, EMPTY, run[0]);
    assert s1.live == map[1 := Connection(p, Dialer(a, false))];
    assert LiveTo(EMPTY.live, p) == {};
    ClashNext(cfg, s1, p, a);
    FirstStep(cfg, EMPTY, run[0], [run[1], run[2]]);
    assert run == [run[0]] + [run[1], run[2]];
  }

  lemma ClashNext(cfg: Config, s: Sys, p: PeerId, a: Multiaddr)
    requires p != cfg.local && InSync(cfg, s) && s.live == map[1 := Connection(p, Dialer(a, false))]
    ensures var rest := [ClashingRun(p, a)[1], ClashingRun(p, a)[2]];
      Legal(cfg, s, rest) && !InSync(cfg, After(cfg, s, rest))
  {
    var x, y := ClashingRun(p, a)[1], ClashingRun(p, a)[2];
    assert LiveTo(s.live, p) == {1};
    var s' := Apply(cfg, s, x);
    SyncStep(cfg, s, x);
    assert 1 in s'.live && 2 in s'.live;
    assert LiveTo(s'.live - {1}, p) == {2};
    assert Shared(cfg, s', 1);
    SyncStep(cfg, s', y);
    OneStep(cfg, s', y);
    FirstStep(cfg, s, x, [y]);
    assert [x] + [y] == [x, y];
  }

  /** The addresses of every peer's live connections are pairwise distinct. */
  ghost predicate DistinctAddresses(cfg: Config, s: Sys) {
    forall id :: id in s.live ==> !Shared(cfg, s, id)
  }

  ghost predicate AlwaysDistinct(cfg: Config, s: Sys, steps: seq<Step>)
    requires Legal(cfg, s, steps)
    decreases |steps|
  {
    DistinctAddresses(cfg, s) && (steps == [] || AlwaysDistinct(cfg, Apply(cfg, s, steps[0]), steps[1..]))
  }

  ghost predicate AlwaysInSync(cfg: Config, s: Sys, steps: seq<Step>)
    requires Legal(cfg, s, steps)
    decreases |steps|
  {
    InSync(cfg, s) && (steps == [] || AlwaysInSync(cfg, Apply(cfg, s, steps[0]), steps[1..]))
  }

  ghost predicate NeverClashes(cfg: Config, s: Sys, steps: seq<Step>)
    requires Legal(cfg, s, steps)
    decreases |steps|
  {
    steps == [] || (!Clashes(cfg, s, steps[0]) && NeverClashes(cfg, Apply(cfg, s, steps[0]), steps[1..]))
  }

  /** Over every run, the table is always exactly the live connections if and only if no step takes a shared address. */
  lemma {:induction false} AlwaysInSyncIff(cfg: Config, s: Sys, steps: seq<Step>)
    requires Legal(cfg, s, steps) && InSync(cfg, s)
    ensures AlwaysInSync(cfg, s, steps) <==> NeverClashes(cfg, s, steps)
    decreases |steps|
  {
    if steps == [] {
    } else {
      SyncStep(cfg, s, steps[0]);
      if !Clashes(cfg, s, steps[0]) {
        AlwaysInSyncIff(cfg, Apply(cfg, s, steps[0]), steps[1..]);
      }
    }
  }

  /** While connections to a peer never share an address, the table is exactly the live connections. */
  lemma {:induction false} ConnectionsEqualSwarm(cfg: Config, s: Sys, steps: seq<Step>)
    requires Legal(cfg, s, steps) && InSync(cfg, s) && AlwaysDistinct(cfg, s, steps)
    ensures InSync(cfg, EMPTY)
    ensures InSync(cfg, After(cfg, s, steps))
    decreases |steps|
  {
    if steps == [] {
    } else {
      SyncStep(cfg, s, steps[0]);
      ConnectionsEqualSwarm(cfg, Apply(cfg, s, steps[0]), steps[1..]);
    }
  }

  // ---------- pruning is a filter ----------

  lemma {:induction false} NewInfosOnce(visit: seq<PeerId>, p: PeerId)
    requires forall i, j :: 0 <= i < j < |visit| ==> visit[i] != visit[j]
    ensures multiset(NewInfos(visit))[NewInfo(p)] == if p in visit then 1 else 0
  {
    if visit == [] {
    } else {
      var n := |visit| - 1;
      NewInfosOnce(visit[..n], p);
      assert NewInfos(visit) == NewInfos(visit[..n]) + [NewInfo(visit[n])];
      assert visit == visit[..n] + [visit[n]];
    }
  }

  /**
   Pruning keeps exactly the peers worth keeping, unchanged, announces each removed one once,
   and at the same time finds nothing more to do.
   */
  lemma PruneIsFilter(b: Book, minAge: nat, now: int, visit: seq<PeerId>, p: PeerId)
    requires Enumerates(visit, Doomed(b, minAge, now))
    ensures var b' := Prune(b, visit);
      && b'.peers == (map q | q in b.peers && Keeps(b.peers[q], minAge, now) :: b.peers[q])
      && Doomed(b', minAge, now) == {}
      && |b.log| <= |b'.log| && b'.log[..|b.log|] == b.log
      && multiset(b'.log[|b.log|..])[NewInfo(p)] == (if p in b.peers && p !in b'.peers then 1 else 0)
  {
    var b' := Prune(b, visit);
    assert (set q | q in visit) == Doomed(b, minAge, now);
    assert b'.peers == map q | q in b.peers && Keeps(b.peers[q], minAge, now) :: b.peers[q];
    NewInfosOnce(visit, p);
    assert b'.log[|b.log|..] == NewInfos(visit);
  }

  /**
   A peer is pruned if and only if it has no connection, no recent failure, no confirmed and no
   freshly probed address.
   */
  lemma PrunedIff(b: Book, minAge: nat, now: int, p: PeerId)
    requires p in b.peers
    ensures var i := b.peers[p];
      p in Doomed(b, minAge, now) <==>
        && i.connections == map[]
        && (i.failures == [] || minAge == 0 || now - i.failures[0].time >= minAge)
        && !HasConfirmed(i.addresses)
        && forall a :: a in i.addresses && i.addresses[a].source.IsToProbe() ==>
             now - i.addresses[a].time >= minAge && now - i.addresses[a].time >= 10_000_000_000
  {
    var i := b.peers[p];
    if HasConfirmed(i.addresses) {
      var a :| a in i.addresses && i.addresses[a].source.IsConfirmed();
      assert KeepsAddress(i.addresses[a], minAge, now);
    }
    if p in Doomed(b, minAge, now) {
      forall a | a in i.addresses && i.addresses[a].source.IsToProbe()
        ensures now - i.addresses[a].time >= minAge && now - i.addresses[a].time >= 10_000_000_000
      {
        assert !KeepsAddress(i.addresses[a], minAge, now);
      }
    }
  }

  /** Asking for older peers, or asking earlier, never prunes more. */
  lemma PruneMonotone(b: Book, minAge: nat, older: nat, now: int, later: int)
    requires minAge <= older && now <= later
    ensures Doomed(b, older, now) <= Doomed(b, minAge, later)
  {
    forall p | p in Doomed(b, older, now) ensures p in Doomed(b, minAge, later) {
      PrunedIff(b, older, now, p);
      PrunedIff(b, minAge, later, p);
    }
  }
}
