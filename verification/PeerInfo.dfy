/** What the address book knows of one peer, and how addresses and failures change it. */
module PeerInfos {
  import opened Options
  import opened Multiaddrs
  import opened Rtts

  /** Where an address was learned, in ascending order of trust. */
  datatype AddressSource = Incoming | Listen | Kad | Mdns | Candidate | User | Dial {
    function Rank(): nat {
      match this
      case Incoming => 0
      case Listen => 1
      case Kad => 2
      case Mdns => 3
      case Candidate => 4
      case User => 5
      case Dial => 6
    }

    predicate IsConfirmed() {
      Dial? || User? || Candidate?
    }

    predicate IsToProbe() {
      Listen? || Kad? || Mdns? || Candidate?
    }

    predicate IsToTranslate() {
      Incoming?
    }
  }

  datatype Entry = Entry(source: AddressSource, time: int)

  type Table = map<Multiaddr, Entry>

  datatype Direction = Inbound | Outbound

  datatype FailureKind = DialError | PeerDisconnected | WeDisconnected

  datatype Failure = Failure(kind: FailureKind, addr: Multiaddr, time: int)

  datatype Info = Info(
    protocolVersion: Option<string>,
    agentVersion: Option<string>,
    protocols: seq<string>,
    listeners: seq<Multiaddr>,
    addresses: Table,
    connections: map<Multiaddr, (int, Direction)>,
    failures: seq<Failure>,
    rtt: Option<Stats>)

  const DEFAULT_INFO := Info(None, None, [], [], map[], map[], [], None)

  function Join(s: AddressSource, t: AddressSource): AddressSource {
    if s.Rank() < t.Rank() then t else s
  }

  /** Offering an address raises its source to the better of the two and refreshes its time. */
  function Ingest(t: Table, a: Multiaddr, s: AddressSource, now: int): Table {
    t[a := Entry(if a in t then Join(t[a].source, s) else s, now)]
  }

  /** An offer asks for a validation dial exactly when it raised the source to one that is to be probed. */
  predicate Probes(t: Table, a: Multiaddr, s: AddressSource) {
    s.IsToProbe() && (a in t ==> t[a].source.Rank() < s.Rank())
  }

  predicate HasConfirmed(t: Table) {
    exists a :: a in t && t[a].source.IsConfirmed()
  }

  /** A failed probe removes its address only while that address is still to be probed. */
  function FailProbe(t: Table, a: Multiaddr, probe: bool): Table {
    if probe && a in t && t[a].source.IsToProbe() then t - {a} else t
  }

  const MAX_FAILURES := 10

  function WithFailure(i: Info, a: Multiaddr, f: Failure, probe: bool): Info {
    i.(addresses := FailProbe(i.addresses, a, probe),
       failures := [f] + (if |i.failures| >= MAX_FAILURES then i.failures[..|i.failures| - 1] else i.failures))
  }

  function WithRtt(i: Info, rtt: Option<nat>): Info {
    match (rtt, i.rtt)
    case (Some(d), Some(s)) => i.(rtt := Some(Registered(s, d)))
    case (Some(d), None) => i.(rtt := Some(Fresh(d)))
    case (None, Some(s)) => i.(rtt := Some(RegisteredFailure(s)))
    case (None, None) => i
  }

  // ---------- ingesting computes a join ----------

  datatype Offer = Offer(addr: Multiaddr, source: AddressSource, time: int)

  function IngestAll(t: Table, offers: seq<Offer>): Table {
    if offers == [] then t
    else
      var o := offers[|offers| - 1];
      Ingest(IngestAll(t, offers[..|offers| - 1]), o.addr, o.source, o.time)
  }

  /** s is the greatest of the source a has in t and those offered for it. */
  ghost predicate IsGreatest(t: Table, offers: seq<Offer>, a: Multiaddr, s: AddressSource) {
    && ((a in t && t[a].source == s) || (exists o :: o in offers && o.addr == a && o.source == s))
    && (a in t ==> t[a].source.Rank() <= s.Rank())
    && (forall o :: o in offers && o.addr == a ==> o.source.Rank() <= s.Rank())
  }

  lemma JoinStep(t: Table, init: seq<Offer>, o: Offer, before: Table, a: Multiaddr)
    requires a in before <==> a in t || exists x :: x in init && x.addr == a
    requires a in before ==> IsGreatest(t, init, a, before[a].source)
    ensures var after := Ingest(before, o.addr, o.source, o.time);
      && (a in after <==> a in t || exists x :: x in init + [o] && x.addr == a)
      && (a in after ==> IsGreatest(t, init + [o], a, after[a].source))
  {
    assert o in init + [o];
    assert forall x :: x in init ==> x in init + [o];
    assert forall x :: x in init + [o] <==> x in init || x == o;
  }

  /** After any sequence of offers every address holds the greatest source ever offered for it. */
  lemma {:induction false} IngestIsJoin(t: Table, offers: seq<Offer>)
    ensures forall a :: a in IngestAll(t, offers) <==> a in t || exists o :: o in offers && o.addr == a
    ensures forall a :: a in IngestAll(t, offers) ==> IsGreatest(t, offers, a, IngestAll(t, offers)[a].source)
  {
    if offers == [] {
    } else {
      var n := |offers| - 1;
      IngestIsJoin(t, offers[..n]);
      assert offers == offers[..n] + [offers[n]];
      forall a
        ensures a in IngestAll(t, offers) <==> a in t || exists o :: o in offers && o.addr == a
        ensures a in IngestAll(t, offers) ==> IsGreatest(t, offers, a, IngestAll(t, offers)[a].source)
      {
        JoinStep(t, offers[..n], offers[n], IngestAll(t, offers[..n]), a);
      }
    }
  }

  lemma GreatestIsUnique(t: Table, xs: seq<Offer>, ys: seq<Offer>, a: Multiaddr, s: AddressSource, s': AddressSource)
    requires forall o :: o in xs <==> o in ys
    requires IsGreatest(t, xs, a, s) && IsGreatest(t, ys, a, s')
    ensures s == s'
  {
    assert s.Rank() == s'.Rank();
  }

  /** The order of the offers does not matter for what is known and how well it is trusted. */
  lemma IngestOrderIrrelevant(t: Table, xs: seq<Offer>, ys: seq<Offer>)
    requires forall o :: o in xs <==> o in ys
    ensures IngestAll(t, xs).Keys == IngestAll(t, ys).Keys
    ensures forall a :: a in IngestAll(t, xs) ==> IngestAll(t, xs)[a].source == IngestAll(t, ys)[a].source
  {
    forall a
      ensures a in IngestAll(t, xs) <==> a in IngestAll(t, ys)
      ensures a in IngestAll(t, xs) ==> IngestAll(t, xs)[a].source == IngestAll(t, ys)[a].source
    {
      SameSource(t, xs, ys, a);
    }
  }

  lemma SameSource(t: Table, xs: seq<Offer>, ys: seq<Offer>, a: Multiaddr)
    requires forall o :: o in xs <==> o in ys
    ensures a in IngestAll(t, xs) <==> a in IngestAll(t, ys)
    ensures a in IngestAll(t, xs) ==> IngestAll(t, xs)[a].source == IngestAll(t, ys)[a].source
  {
    IngestIsJoin(t, xs);
    IngestIsJoin(t, ys);
    if a in IngestAll(t, xs) {
      GreatestIsUnique(t, xs, ys, a, IngestAll(t, xs)[a].source, IngestAll(t, ys)[a].source);
    }
  }

  // ---------- the record as the source updates it ----------

  /**
   The record under an exclusive borrow: taken out of the book's table, updated in place, and
   written back when the borrow ends.
   */
  class PeerInfo {
    var protocolVersion: Option<string>
    var agentVersion: Option<string>
    var protocols: seq<string>
    var listeners: seq<Multiaddr>
    var addresses: Table
    var connections: map<Multiaddr, (int, Direction)>
    var failures: seq<Failure>
    var rtt: Rtt?

    function Value(): Info
      reads this, rtt
    {
      Info(protocolVersion, agentVersion, protocols, listeners, addresses, connections, failures,
           if rtt == null then None else Some(rtt.Value()))
    }

    constructor (v: Info)
      ensures Value() == v && (rtt != null ==> fresh(rtt))
    {
      protocolVersion, agentVersion, protocols, listeners :=
        v.protocolVersion, v.agentVersion, v.protocols, v.listeners;
      addresses, connections, failures := v.addresses, v.connections, v.failures;
      if v.rtt.Some? {
        var r := new Rtt.From(v.rtt.value);
        rtt := r;
      } else {
        rtt := null;
      }
    }

    method IngestAddress(a: Multiaddr, source: AddressSource, now: int) returns (probe: bool)
      modifies this`addresses
      ensures addresses == Ingest(old(addresses), a, source, now)
      ensures probe == Probes(old(addresses), a, source)
    {
      if a in addresses {
        var src := addresses[a].source;
        if source.Rank() <= src.Rank() {
          addresses := addresses[a := Entry(src, now)];
          probe := false;
        } else {
          addresses := addresses[a := Entry(source, now)];
          probe := source.IsToProbe();
        }
      } else {
        addresses := addresses[a := Entry(source, now)];
        probe := source.IsToProbe();
      }
    }

    method PushFailure(a: Multiaddr, f: Failure, probe: bool)
      modifies this`addresses, this`failures
      ensures Value() == WithFailure(old(Value()), a, f, probe)
    {
      if |failures| > 9 {
        failures := failures[..|failures| - 1];
      }
      if probe && a in addresses && addresses[a].source.IsToProbe() {
        addresses := addresses - {a};
      }
      failures := [f] + failures;
    }

    method SetRtt(sample: Option<nat>)
      modifies this`rtt, rtt
      ensures Value() == WithRtt(old(Value()), sample)
      ensures rtt == old(rtt) || fresh(rtt)
    {
      match sample
      case Some(d) =>
        if rtt != null {
          rtt.Register(d);
        } else {
          rtt := new Rtt(d);
        }
      case None =>
        if rtt != null {
          rtt.RegisterFailure();
        }
    }
  }

  // ---------- what the record keeps ----------

  /** The sources in ascending order; the order alone says which are confirmed, to be probed or to be translated. */
  lemma SourceOrder(s: AddressSource)
    ensures Incoming.Rank() < Listen.Rank() < Kad.Rank() < Mdns.Rank() < Candidate.Rank() < User.Rank() < Dial.Rank()
    ensures s.IsConfirmed() <==> Candidate.Rank() <= s.Rank()
    ensures s.IsToProbe() <==> Listen.Rank() <= s.Rank() <= Candidate.Rank()
    ensures s.IsToTranslate() <==> s == Incoming
  {}

  /** The time of the latest offer of an address. */
  function LatestOffer(offers: seq<Offer>, a: Multiaddr): Option<int> {
    if offers == [] then None
    else if offers[|offers| - 1].addr == a then Some(offers[|offers| - 1].time)
    else LatestOffer(offers[..|offers| - 1], a)
  }

  /** Every address carries the time of its latest offer, and one that was not offered stays as it was. */
  lemma {:induction false} TimesFollowOffers(t: Table, offers: seq<Offer>, a: Multiaddr)
    ensures match LatestOffer(offers, a)
      case Some(time) => a in IngestAll(t, offers) && IngestAll(t, offers)[a].time == time
      case None => (a in IngestAll(t, offers) <==> a in t) && (a in t ==> IngestAll(t, offers)[a] == t[a])
  {
    if offers == [] {
    } else {
      TimesFollowOffers(t, offers[..|offers| - 1], a);
    }
  }

  /** A failure to be recorded, the address it is about, and whether it is the result of a probe. */
  datatype Report = Report(addr: Multiaddr, failure: Failure, probe: bool)

  function RecordAll(i: Info, reports: seq<Report>): Info {
    if reports == [] then i
    else
      var r := reports[|reports| - 1];
      WithFailure(RecordAll(i, reports[..|reports| - 1]), r.addr, r.failure, r.probe)
  }

  /** All failures, newest first. */
  function NewestFirst(reports: seq<Report>, older: seq<Failure>): seq<Failure> {
    if reports == [] then older
    else [reports[|reports| - 1].failure] + NewestFirst(reports[..|reports| - 1], older)
  }

  /** After any reports the record holds the ten newest failures, newest first, or all when they are fewer. */
  lemma {:induction false} TenNewestFailures(i: Info, reports: seq<Report>)
    requires |i.failures| <= 10
    ensures var all := NewestFirst(reports, i.failures);
      RecordAll(i, reports).failures == if |all| <= 10 then all else all[..10]
  {
    if reports == [] {
    } else {
      TenNewestFailures(i, reports[..|reports| - 1]);
    }
  }

  /**
   A report takes its address out of the table if and only if it is a probe's and the address is
   still to be probed.
   */
  lemma ReportRemovesIff(i: Info, r: Report, a: Multiaddr)
    ensures var i' := WithFailure(i, r.addr, r.failure, r.probe);
      && (a in i'.addresses <==>
          && a in i.addresses
          && !(a == r.addr && r.probe && Listen.Rank() <= i.addresses[a].source.Rank() <= Candidate.Rank()))
      && (a in i'.addresses ==> i'.addresses[a] == i.addresses[a])
      && i' == i.(addresses := i'.addresses, failures := i'.failures)
  {}

  function PingAll(i: Info, pings: seq<Option<nat>>): Info {
    if pings == [] then i else WithRtt(PingAll(i, pings[..|pings| - 1]), pings[|pings| - 1])
  }

  function Samples(pings: seq<Option<nat>>): seq<Sample> {
    seq(|pings|, k requires 0 <= k < |pings| => if pings[k].Some? then Reply(pings[k].value) else Timeout)
  }

  /** A peer has statistics from its first reply on, and they are those of the pings that followed. */
  lemma {:induction false} StatisticsFromFirstReply(i: Info, pings: seq<Option<nat>>, k: nat)
    requires i.rtt == None && k <= |pings| && forall j :: 0 <= j < k ==> pings[j] == None
    requires k < |pings| ==> pings[k].Some?
    ensures PingAll(i, pings)
         == i.(rtt := if k == |pings| then None else Some(History(pings[k].value, Samples(pings[k + 1..]))))
  {
    if pings == [] {
    } else {
      var n := |pings| - 1;
      if k < n {
        StatisticsFromFirstReply(i, pings[..n], k);
        assert pings[k + 1..] == pings[..n][k + 1..] + [pings[n]];
        assert Samples(pings[k + 1..])[..n - k - 1] == Samples(pings[..n][k + 1..]);
      } else {
        StatisticsFromFirstReply(i, pings[..n], n);
      }
    }
  }
}
