/**
 The query table of the network backend: requests wait under the id their protocol gave them
 until a terminal event answers the reply channel or a cancellation drops it.
 */
module Queries {
  import opened Options
  import opened Multiaddrs

  datatype QueryId = Bitswap(n: int) | Kad(n: int)

  type Channel = int

  datatype Record = Record(key: int, value: int)

  datatype Quorum = One | Majority | All | Count(n: int)

  const K_VALUE := 20

  function QuorumSize(q: Quorum): int {
    match q
    case One => 1
    case Majority => K_VALUE / 2 + 1
    case All => K_VALUE
    case Count(n) => n
  }

  datatype Fault = NotBootstrapped | Refused | QueryFailed

  datatype Answer =
    | Unit
    | PeerList(peers: seq<PeerId>)
    | ProviderSet(providers: set<PeerId>)
    | RecordList(records: seq<Record>)
    | Failed(fault: Fault)

  datatype Message = Progress(missing: nat) | Reply(answer: Answer)

  /** An entry of the table: what has been gathered and the channel to answer. */
  datatype Entry =
    | Get(ch: Channel)
    | Sync(ch: Channel)
    | Bootstrap(ch: Channel)
    | GetClosestPeers(ch: Channel)
    | GetProviders(found: set<PeerId>, ch: Channel)
    | StartProviding(ch: Channel)
    | GetRecord(quorum: int, records: seq<Record>, ch: Channel)
    | PutRecord(ch: Channel)

  datatype KadResult =
    | BootstrapOk(remaining: nat)
    | BootstrapErr
    | ClosestOk(peers: seq<PeerId>)
    | ClosestErr
    | ProvidersOk(providers: Option<set<PeerId>>)
    | ProvidersErr
    | ProvideOk
    | ProvideErr
    | RecordOk(record: Option<Record>)
    | RecordErr
    | PutOk
    | PutErr
    | Republished

  /**
   `sent` holds every reply channel ever opened with what was put into it; `cancelled` those whose
   future was dropped, and `abandoned` those that still waited when the service ended.
   */
  datatype Net = Net(
    kad: bool,
    bitswap: bool,
    bootstrapped: bool,
    queries: map<QueryId, Entry>,
    sent: map<Channel, seq<Message>>,
    cancelled: set<Channel>,
    abandoned: set<Channel>,
    stopped: bool)

  /** Commands and events; `started` is the id the protocol gave the query, if it took it. */
  datatype Input =
    | AskBootstrap(ch: Channel, started: Option<int>)
    | AskProvide(ch: Channel, started: Option<int>)
    | AskPut(ch: Channel, started: Option<int>)
    | AskProviders(ch: Channel, id: int)
    | AskRecord(ch: Channel, quorum: Quorum, id: int)
    | AskGet(ch: Channel, id: int)
    | AskSync(ch: Channel, id: int)
    | Cancel(query: QueryId)
    | KadEvent(id: int, result: KadResult, last: bool)
    | BitswapProgress(id: int, missing: nat)
    | BitswapComplete(id: int, ok: bool)
    | Stop // the service ends and takes the table with it

  // ---------- transitions ----------

  function Send(s: Net, ch: Channel, m: Message): Net {
    s.(sent := s.sent[ch := (if ch in s.sent then s.sent[ch] else []) + [m]])
  }

  function Open(s: Net, ch: Channel): Net {
    s.(sent := s.sent[ch := []])
  }

  function Insert(s: Net, id: QueryId, e: Entry): Net {
    s.(queries := s.queries[id := e])
  }

  /** Removes the entry and answers it; the channel is dropped unanswered when the kind is wrong. */
  function Finish(s: Net, id: QueryId, right: bool, answer: Answer): Net {
    if id !in s.queries then s
    else
      var s' := s.(queries := s.queries - {id});
      if right then Send(s', s.queries[id].ch, Reply(answer)) else s'
  }

  function Start(s: Net, ch: Channel, started: Option<int>, e: Entry): Net {
    if started.Some? then Insert(s, Kad(started.value), e) else Send(s, ch, Reply(Failed(Refused)))
  }

  /** Requests to a bootstrapped network that has no Kademlia are dropped without a word. */
  function WhenBootstrapped(s: Net, ch: Channel, started: Option<int>, e: Entry): Net {
    if !s.bootstrapped then Send(s, ch, Reply(Failed(NotBootstrapped)))
    else if s.kad then Start(s, ch, started, e)
    else s
  }

  /** The result is of the kind the entry waits for. */
  predicate Matches(e: Entry, r: KadResult) {
    match r
    case BootstrapOk(_) => e.Bootstrap?
    case BootstrapErr => e.Bootstrap?
    case ClosestOk(_) => e.GetClosestPeers?
    case ClosestErr => e.GetClosestPeers?
    case ProvidersOk(_) => e.GetProviders?
    case ProvidersErr => e.GetProviders?
    case ProvideOk => e.StartProviding?
    case ProvideErr => e.StartProviding?
    case RecordOk(_) => e.GetRecord?
    case RecordErr => e.GetRecord?
    case PutOk => e.PutRecord?
    case PutErr => e.PutRecord?
    case Republished => true
  }

  /** Results that take the entry out of the table whatever its kind. */
  predicate Takes(r: KadResult) {
    !r.ProvidersOk? && !r.RecordOk? && !r.Republished? && (r.BootstrapOk? ==> r.remaining == 0)
  }

  predicate IsError(r: KadResult) {
    r.BootstrapErr? || r.ClosestErr? || r.ProvidersErr? || r.ProvideErr? || r.RecordErr? || r.PutErr?
  }

  /** What such a result answers. */
  function AnswerOf(r: KadResult): Answer {
    if r.ClosestOk? then PeerList(r.peers)
    else if r.BootstrapOk? || r.ProvideOk? || r.PutOk? then Unit
    else Failed(QueryFailed)
  }

  /** Results that add to a waiting entry, and end it at the last step or the quorum. */
  function Gather(s: Net, id: QueryId, r: KadResult, last: bool): Net
    requires id in s.queries && Matches(s.queries[id], r)
  {
    var e := s.queries[id];
    match r
    case ProvidersOk(found) =>
      var all := e.found + (if found.Some? then found.value else {});
      if last then Finish(s, id, true, ProviderSet(all)) else Insert(s, id, e.(found := all))
    case RecordOk(record) =>
      var all := e.records + (if record.Some? then [record.value] else []);
      if last || |all| >= e.quorum then Finish(s, id, true, RecordList(all)) else Insert(s, id, e.(records := all))
    case _ => s
  }

  function OnKad(s: Net, n: int, r: KadResult, last: bool): Net {
    var id := Kad(n);
    if Takes(r) then
      Finish(s, id, id in s.queries && Matches(s.queries[id], r), AnswerOf(r))
      .(bootstrapped := s.bootstrapped || r.BootstrapOk?)
    else if id in s.queries && Matches(s.queries[id], r) then Gather(s, id, r, last)
    else s
  }

  function Step(s: Net, i: Input): Net {
    match i
    case AskBootstrap(ch, started) =>
      if s.kad then Start(Open(s, ch), ch, started, Bootstrap(ch))
      else Send(Open(s, ch), ch, Reply(Failed(NotBootstrapped)))
    case AskProvide(ch, started) => WhenBootstrapped(Open(s, ch), ch, started, StartProviding(ch))
    case AskPut(ch, started) => WhenBootstrapped(Open(s, ch), ch, started, PutRecord(ch))
    case AskProviders(ch, id) => WhenBootstrapped(Open(s, ch), ch, Some(id), GetProviders({}, ch))
    case AskRecord(ch, quorum, id) => WhenBootstrapped(Open(s, ch), ch, Some(id), GetRecord(QuorumSize(quorum), [], ch))
    case AskGet(ch, id) => Insert(Open(s, ch), Bitswap(id), Get(ch))
    case AskSync(ch, id) => Insert(Open(s, ch), Bitswap(id), Sync(ch))
    case Cancel(id) =>
      if id in s.queries then s.(queries := s.queries - {id}, cancelled := s.cancelled + {s.queries[id].ch}) else s
    case KadEvent(n, result, last) => OnKad(s, n, result, last)
    case BitswapProgress(n, missing) =>
      if Bitswap(n) in s.queries && s.queries[Bitswap(n)].Sync?
      then Send(s, s.queries[Bitswap(n)].ch, Progress(missing)) else s
    case BitswapComplete(n, ok) =>
      Finish(s, Bitswap(n), Bitswap(n) in s.queries && (s.queries[Bitswap(n)].Get? || s.queries[Bitswap(n)].Sync?),
             if ok then Unit else Failed(QueryFailed))
    case Stop => End(s)
  }

  /** The channels of the waiting requests. */
  function Waiting(s: Net): set<Channel> {
    set id | id in s.queries :: s.queries[id].ch
  }

  /** Ending the service drops every entry unanswered. */
  function End(s: Net): Net {
    s.(queries := map[], abandoned := s.abandoned + Waiting(s), stopped := true)
  }

  // ---------- the environment ----------

  predicate FreshKad(s: Net, ch: Channel, started: Option<int>) {
    ch !in s.sent && (started.Some? ==> Kad(started.value) !in s.queries)
  }

  /**
   Channels and query ids are fresh, events come from enabled protocols, results match their
   query, and nothing follows the end of the service.
   */
  predicate Lawful(s: Net, i: Input) {
    !s.stopped &&
    match i
    case AskBootstrap(ch, started) => FreshKad(s, ch, started)
    case AskProvide(ch, started) => FreshKad(s, ch, started)
    case AskPut(ch, started) => FreshKad(s, ch, started)
    case AskProviders(ch, id) => FreshKad(s, ch, Some(id))
    case AskRecord(ch, quorum, id) => FreshKad(s, ch, Some(id)) && QuorumSize(quorum) >= 1
    case AskGet(ch, id) => s.bitswap && ch !in s.sent && Bitswap(id) !in s.queries
    case AskSync(ch, id) => s.bitswap && ch !in s.sent && Bitswap(id) !in s.queries
    case Cancel(id) => id.Bitswap? ==> s.bitswap
    case KadEvent(n, r, _) => s.kad && (Kad(n) in s.queries ==> Matches(s.queries[Kad(n)], r))
    case BitswapProgress(_, _) => s.bitswap
    case BitswapComplete(_, _) => s.bitswap
    case Stop => true
  }

  ghost predicate Legal(s: Net, ins: seq<Input>) {
    ins == [] || (Legal(s, ins[..|ins| - 1]) && Lawful(After(s, ins[..|ins| - 1]), ins[|ins| - 1]))
  }

  ghost function After(s: Net, ins: seq<Input>): Net {
    if ins == [] then s else Step(After(s, ins[..|ins| - 1]), ins[|ins| - 1])
  }

  function Initial(kad: bool, bitswap: bool): Net {
    Net(kad, bitswap, false, map[], map[], {}, {}, false)
  }

  // ---------- the invariant ----------

  predicate OnlyProgress(ms: seq<Message>) {
    forall i :: 0 <= i < |ms| ==> ms[i].Progress?
  }

  /** Progress messages and then exactly one reply. */
  predicate Complete(ms: seq<Message>) {
    |ms| > 0 && ms[|ms| - 1].Reply? && OnlyProgress(ms[..|ms| - 1])
  }

  ghost predicate IsPending(s: Net, ch: Channel) {
    exists id :: id in s.queries && s.queries[id].ch == ch
  }

  /** The entry was taken out unanswered: its future went away, or the service ended. */
  predicate IsDropped(s: Net, ch: Channel) {
    ch in s.cancelled || ch in s.abandoned
  }

  predicate EntryOk(id: QueryId, e: Entry) {
    && (id.Bitswap? <==> e.Get? || e.Sync?)
    && (e.GetRecord? ==> |e.records| < e.quorum)
  }

  ghost predicate Inv(s: Net) {
    && (s.bootstrapped ==> s.kad)
    && (forall id :: id in s.queries ==>
          EntryOk(id, s.queries[id]) && s.queries[id].ch in s.sent && !IsDropped(s, s.queries[id].ch))
    && (forall i, j :: i in s.queries && j in s.queries && i != j ==> s.queries[i].ch != s.queries[j].ch)
    && (forall ch :: IsDropped(s, ch) ==> ch in s.sent)
    && s.cancelled !! s.abandoned
    && (forall ch :: ch in s.sent ==>
          if IsDropped(s, ch) || IsPending(s, ch) then OnlyProgress(s.sent[ch]) else Complete(s.sent[ch]))
  }
}
