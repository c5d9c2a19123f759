/** What requests are answered with. */
module Replies {
  import opened Options
  import opened Queries
  import opened QueryProofs

  // ---------- requests ----------

  /** The request waits under this id, on a channel that is still empty. */
  ghost predicate Waits(s: Net, s': Net, ch: Channel, id: QueryId, e: Entry) {
    s' == s.(queries := s.queries[id := e], sent := s.sent[ch := []])
  }

  /** The request is answered at once. */
  ghost predicate FailsAtOnce(s: Net, s': Net, ch: Channel, fault: Fault) {
    s' == s.(sent := s.sent[ch := [Reply(Failed(fault))]])
  }

  /** The outcome of a request that needs Kademlia, and of one that needs it bootstrapped as well. */
  ghost predicate Starts(s: Net, s': Net, ch: Channel, started: Option<int>, e: Entry) {
    if started.Some? then Waits(s, s', ch, Kad(started.value), e) else FailsAtOnce(s, s', ch, Refused)
  }

  /**
   In every reachable state a request waits under the id it is given, fails because the protocol
   refuses it, or fails because we are not bootstrapped; a request for records waits for 1, 11, 20 or
   the given number of them.
   */
  lemma RequestOutcome(s: Net, i: Input)
    requires Inv(s) && Lawful(s, i)
    ensures match i
      case AskBootstrap(ch, started) =>
        if s.kad then Starts(s, Step(s, i), ch, started, Bootstrap(ch))
        else FailsAtOnce(s, Step(s, i), ch, NotBootstrapped)
      case AskProvide(ch, started) =>
        if s.bootstrapped then Starts(s, Step(s, i), ch, started, StartProviding(ch))
        else FailsAtOnce(s, Step(s, i), ch, NotBootstrapped)
      case AskPut(ch, started) =>
        if s.bootstrapped then Starts(s, Step(s, i), ch, started, PutRecord(ch))
        else FailsAtOnce(s, Step(s, i), ch, NotBootstrapped)
      case AskProviders(ch, id) =>
        if s.bootstrapped then Waits(s, Step(s, i), ch, Kad(id), GetProviders({}, ch))
        else FailsAtOnce(s, Step(s, i), ch, NotBootstrapped)
      case AskRecord(ch, quorum, id) =>
        var n := match quorum case One => 1 case Majority => 11 case All => 20 case Count(n) => n;
        if s.bootstrapped then Waits(s, Step(s, i), ch, Kad(id), GetRecord(n, [], ch))
        else FailsAtOnce(s, Step(s, i), ch, NotBootstrapped)
      case AskGet(ch, id) => Waits(s, Step(s, i), ch, Bitswap(id), Get(ch))
      case AskSync(ch, id) => Waits(s, Step(s, i), ch, Bitswap(id), Sync(ch))
      case _ => true
  {
    match i
    case AskBootstrap(ch, started) => AskOutcome(s, ch, started, Bootstrap(ch));
    case AskProvide(ch, started) => AskOutcome(s, ch, started, StartProviding(ch));
    case AskPut(ch, started) => AskOutcome(s, ch, started, PutRecord(ch));
    case AskProviders(ch, id) => AskOutcome(s, ch, Some(id), GetProviders({}, ch));
    case AskRecord(ch, quorum, id) => AskOutcome(s, ch, Some(id), GetRecord(QuorumSize(quorum), [], ch));
    case _ =>
  }

  lemma AskOutcome(s: Net, ch: Channel, started: Option<int>, e: Entry)
    ensures FailsAtOnce(s, Send(Open(s, ch), ch, Reply(Failed(NotBootstrapped))), ch, NotBootstrapped)
    ensures Starts(s, Start(Open(s, ch), ch, started, e), ch, started, e)
  {
    assert forall r: Message :: [] + [r] == [r];
    assert forall r: Message :: s.sent[ch := []][ch := [r]] == s.sent[ch := [r]];
  }

  /** The latch is set if and only if some bootstrap query reported its last step. */
  lemma {:induction false} LatchIff(kad: bool, bitswap: bool, ins: seq<Input>)
    ensures After(Initial(kad, bitswap), ins).bootstrapped <==>
      exists k :: 0 <= k < |ins| && ins[k].KadEvent? && ins[k].result == BootstrapOk(0)
  {
    if ins == [] {
    } else {
      var n := |ins| - 1;
      LatchIff(kad, bitswap, ins[..n]);
      LatchStep(After(Initial(kad, bitswap), ins[..n]), ins[n]);
      if k :| 0 <= k < |ins| && ins[k].KadEvent? && ins[k].result == BootstrapOk(0) {
        assert k < n ==> ins[..n][k] == ins[k];
      }
    }
  }

  lemma LatchStep(s: Net, i: Input)
    ensures Step(s, i).bootstrapped <==> s.bootstrapped || (i.KadEvent? && i.result == BootstrapOk(0))
  {
    if i.KadEvent? {
      KadLatch(s, i.id, i.result, i.last);
    }
  }

  lemma KadLatch(s: Net, n: int, r: KadResult, last: bool)
    ensures OnKad(s, n, r, last).bootstrapped <==> s.bootstrapped || r == BootstrapOk(0)
  {}

  /** Cancelling withdraws exactly the entry under the id, and sends nothing. */
  lemma CancelWithdraws(s: Net, id: QueryId)
    ensures Step(s, Cancel(id))
         == s.(queries := s.queries - {id},
               cancelled := s.cancelled + (if id in s.queries then {s.queries[id].ch} else {}))
  {
    if id !in s.queries {
      assert s.queries - {id} == s.queries;
      assert s.cancelled + {} == s.cancelled;
    }
  }

  // ---------- terminal results ----------

  /** The entry is gone, its channel has got this answer and nothing else changed but perhaps the latch. */
  ghost predicate Answers(s: Net, s': Net, id: QueryId, answer: Answer)
    requires id in s.queries && s.queries[id].ch in s.sent
  {
    var ch := s.queries[id].ch;
    s' == s.(queries := s.queries - {id}, sent := s.sent[ch := s.sent[ch] + [Reply(answer)]],
             bootstrapped := s'.bootstrapped)
  }

  predicate IsTerminal(r: KadResult) {
    match r
    case BootstrapOk(remaining) => remaining == 0
    case ProvidersOk(_) => false
    case RecordOk(_) => false
    case Republished => false
    case _ => true
  }

  lemma TerminalAnswer(s: Net, n: int, r: KadResult, last: bool)
    requires Inv(s) && Lawful(s, KadEvent(n, r, last)) && Kad(n) in s.queries && IsTerminal(r)
    ensures s.queries[Kad(n)].ch in s.sent
    ensures Answers(s, Step(s, KadEvent(n, r, last)), Kad(n), match r
      case BootstrapOk(_) => Unit
      case ProvideOk => Unit
      case PutOk => Unit
      case ClosestOk(peers) => PeerList(peers)
      case _ => Failed(QueryFailed))
  {}

  /**
   In every reachable state the result that ends a Kademlia query is answered once on its channel:
   the six errors with a failure, the peers found with these peers, and a finished bootstrap,
   announcement or store with success.
   */
  lemma ConcludedReply(kad: bool, bitswap: bool, ins: seq<Input>, n: int, r: KadResult, last: bool)
    requires Legal(Initial(kad, bitswap), ins + [KadEvent(n, r, last)])
    requires Kad(n) in After(Initial(kad, bitswap), ins).queries && IsTerminal(r)
    ensures var s := After(Initial(kad, bitswap), ins);
      && s.queries[Kad(n)].ch in s.sent
      && Answers(s, Step(s, KadEvent(n, r, last)), Kad(n), match r
           case BootstrapOk(_) => Unit
           case ProvideOk => Unit
           case PutOk => Unit
           case ClosestOk(peers) => PeerList(peers)
           case _ => Failed(QueryFailed))
  {
    LegalPrefix(Initial(kad, bitswap), ins, KadEvent(n, r, last));
    ReachableInv(kad, bitswap, ins);
    TerminalAnswer(After(Initial(kad, bitswap), ins), n, r, last);
  }

  lemma CompleteAnswer(s: Net, n: int, ok: bool)
    requires Inv(s) && Bitswap(n) in s.queries
    ensures s.queries[Bitswap(n)].ch in s.sent
    ensures Answers(s, Step(s, BitswapComplete(n, ok)), Bitswap(n), if ok then Unit else Failed(QueryFailed))
  {
    assert EntryOk(Bitswap(n), s.queries[Bitswap(n)]);
  }

  /**
   In every reachable state the end of a get or sync query is answered once on its channel, with
   success exactly if it was one.
   */
  lemma BitswapReply(kad: bool, bitswap: bool, ins: seq<Input>, n: int, ok: bool)
    requires Legal(Initial(kad, bitswap), ins)
    requires Bitswap(n) in After(Initial(kad, bitswap), ins).queries
    ensures var s := After(Initial(kad, bitswap), ins);
      && s.queries[Bitswap(n)].ch in s.sent
      && Answers(s, Step(s, BitswapComplete(n, ok)), Bitswap(n), if ok then Unit else Failed(QueryFailed))
  {
    ReachableInv(kad, bitswap, ins);
    CompleteAnswer(After(Initial(kad, bitswap), ins), n, ok);
  }

  // ---------- progress ----------

  /** The progress reported for a query since it was asked, in order. */
  function Reported(ins: seq<Input>, id: int): seq<Message> {
    if ins == [] then []
    else
      var n := |ins| - 1;
      if (ins[n].AskSync? || ins[n].AskGet?) && ins[n].id == id then []
      else
        var before := Reported(ins[..n], id);
        if ins[n].BitswapProgress? && ins[n].id == id then before + [Progress(ins[n].missing)] else before
  }

  ghost predicate Tracks(s: Net, ins: seq<Input>, id: int) {
    Bitswap(id) in s.queries && s.queries[Bitswap(id)].Sync? ==>
      s.queries[Bitswap(id)].ch in s.sent && s.sent[s.queries[Bitswap(id)].ch] == Reported(ins, id)
  }

  /** Entries and their channels are left alone by inputs that concern other ids. */
  lemma OtherChannelsStay(s: Net, i: Input, id: int)
    requires Inv(s) && Lawful(s, i) && Bitswap(id) in Step(s, i).queries
    requires !((i.AskSync? || i.AskGet? || i.BitswapProgress? || i.BitswapComplete?) && i.id == id)
    ensures Bitswap(id) in s.queries && Step(s, i).queries[Bitswap(id)] == s.queries[Bitswap(id)]
    ensures var ch := s.queries[Bitswap(id)].ch;
      ch in s.sent && ch in Step(s, i).sent && Step(s, i).sent[ch] == s.sent[ch]
  {
    if i.KadEvent? {
      KadAddsNoBitswap(s, i.id, i.result, i.last, id);
      KadLeavesBitswap(s, i.id, i.result, i.last, id);
    } else if i.BitswapProgress? || i.BitswapComplete? {
      BitswapLeavesOthers(s, i, id);
    }
  }

  lemma BitswapLeavesOthers(s: Net, i: Input, id: int)
    requires Inv(s) && (i.BitswapProgress? || i.BitswapComplete?) && i.id != id && Bitswap(id) in Step(s, i).queries
    ensures Bitswap(id) in s.queries && Step(s, i).queries[Bitswap(id)] == s.queries[Bitswap(id)]
    ensures var ch := s.queries[Bitswap(id)].ch;
      ch in s.sent && ch in Step(s, i).sent && Step(s, i).sent[ch] == s.sent[ch]
  {}

  lemma FinishLeavesOther(s: Net, id: QueryId, right: bool, answer: Answer, other: QueryId)
    requires Inv(s) && other in s.queries && id != other
    ensures var s', ch := Finish(s, id, right, answer), s.queries[other].ch;
      && other in s'.queries && s'.queries[other] == s.queries[other]
      && ch in s.sent && ch in s'.sent && s'.sent[ch] == s.sent[ch]
  {}

  lemma GatherLeavesOther(s: Net, id: QueryId, r: KadResult, last: bool, other: QueryId)
    requires Inv(s) && id in s.queries && Matches(s.queries[id], r) && other in s.queries && id != other
    ensures var s', ch := Gather(s, id, r, last), s.queries[other].ch;
      && other in s'.queries && s'.queries[other] == s.queries[other]
      && ch in s.sent && ch in s'.sent && s'.sent[ch] == s.sent[ch]
  {
    var e := s.queries[id];
    if r.ProvidersOk? {
      var all := e.found + (if r.providers.Some? then r.providers.value else {});
      FinishLeavesOther(s, id, true, ProviderSet(all), other);
    } else if r.RecordOk? {
      var all := e.records + (if r.record.Some? then [r.record.value] else []);
      FinishLeavesOther(s, id, true, RecordList(all), other);
    }
  }

  lemma KadLeavesBitswap(s: Net, n: int, r: KadResult, last: bool, id: int)
    requires Inv(s) && Bitswap(id) in s.queries
    ensures var s', ch := OnKad(s, n, r, last), s.queries[Bitswap(id)].ch;
      && Bitswap(id) in s'.queries && s'.queries[Bitswap(id)] == s.queries[Bitswap(id)]
      && ch in s.sent && ch in s'.sent && s'.sent[ch] == s.sent[ch]
  {
    if Takes(r) {
      var right := Kad(n) in s.queries && Matches(s.queries[Kad(n)], r);
      FinishLeavesOther(s, Kad(n), right, AnswerOf(r), Bitswap(id));
    } else if Kad(n) in s.queries && Matches(s.queries[Kad(n)], r) {
      GatherLeavesOther(s, Kad(n), r, last, Bitswap(id));
    }
  }

  lemma KadAddsNoBitswap(s: Net, n: int, r: KadResult, last: bool, id: int)
    ensures Bitswap(id) in OnKad(s, n, r, last).queries ==> Bitswap(id) in s.queries
  {}

  lemma TracksStep(s: Net, ins: seq<Input>, id: int)
    requires ins != [] && Inv(s) && Lawful(s, ins[|ins| - 1]) && Tracks(s, ins[..|ins| - 1], id)
    ensures Tracks(Step(s, ins[|ins| - 1]), ins, id)
  {
    var i := ins[|ins| - 1];
    if Bitswap(id) in Step(s, i).queries
       && !((i.AskSync? || i.AskGet? || i.BitswapProgress? || i.BitswapComplete?) && i.id == id) {
      OtherChannelsStay(s, i, id);
    }
  }

  /** In every reachable state a waiting sync query has been told exactly the progress reported for it, in order. */
  lemma {:induction false} ProgressDelivered(kad: bool, bitswap: bool, ins: seq<Input>, id: int)
    requires Legal(Initial(kad, bitswap), ins)
    ensures Tracks(After(Initial(kad, bitswap), ins), ins, id)
  {
    if ins == [] {
    } else {
      var n := |ins| - 1;
      ProgressDelivered(kad, bitswap, ins[..n], id);
      ReachableInv(kad, bitswap, ins[..n]);
      TracksStep(After(Initial(kad, bitswap), ins[..n]), ins, id);
    }
  }
}
