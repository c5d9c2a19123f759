/** The query table as the source keeps it, and the future that waits for a sync query. */
module Backends {
  import opened Options
  import opened Multiaddrs
  import opened Queries
  import opened QueryProofs

  lemma StepKeepsValid(s: Net, i: Input)
    ensures Inv(s) && Lawful(s, i) ==> Inv(Step(s, i))
  {
    if Inv(s) && Lawful(s, i) {
      StepKeepsInv(s, i);
    }
  }

  class Backend {
    const kad: bool
    const bitswap: bool
    var bootstrapped: bool
    var queries: map<QueryId, Entry>
    var sent: map<Channel, seq<Message>>
    ghost var cancelled: set<Channel>
    ghost var abandoned: set<Channel>
    ghost var stopped: bool

    ghost function State(): Net
      reads this
    {
      Net(kad, bitswap, bootstrapped, queries, sent, cancelled, abandoned, stopped)
    }

    /** The table invariant; every handler keeps it for lawful inputs. */
    ghost predicate Valid()
      reads this
    {
      Inv(State())
    }

    /** No request of a valid backend is lost, and none is answered twice. */
    lemma RequestsAreAccounted(ch: Channel)
      requires Valid() && ch in sent
      ensures Accounted(State(), ch)
    {
      InvAccounts(State(), ch);
    }

    constructor (kad: bool, bitswap: bool)
      ensures State() == Initial(kad, bitswap)
      ensures Valid()
    {
      this.kad, this.bitswap := kad, bitswap;
      bootstrapped, queries, sent := false, map[], map[];
      cancelled, abandoned, stopped := {}, {}, false;
    }

    method SendReply(ch: Channel, answer: Answer)
      modifies this`sent
      ensures State() == Send(old(State()), ch, Reply(answer))
    {
      sent := sent[ch := (if ch in sent then sent[ch] else []) + [Reply(answer)]];
    }

    /** Takes an entry out of the table. */
    method Remove(id: QueryId) returns (e: Option<Entry>)
      modifies this`queries
      ensures e == (if id in old(queries) then Some(old(queries)[id]) else None)
      ensures queries == old(queries) - {id}
    {
      e := if id in queries then Some(queries[id]) else None;
      queries := queries - {id};
    }

    /** Takes an entry out and answers it if it is of the right kind. */
    method Resolve(id: QueryId, right: bool, answer: Answer)
      modifies this`queries, this`sent
      ensures State() == Finish(old(State()), id, right, answer)
    {
      var e := Remove(id);
      if e.Some? && right {
        SendReply(e.value.ch, answer);
      }
    }

    // ---------- requests ----------

    method Bootstrap(ch: Channel, started: Option<int>)
      modifies this`queries, this`sent
      ensures State() == Step(old(State()), AskBootstrap(ch, started))
      ensures old(Valid() && Lawful(State(), AskBootstrap(ch, started))) ==> Valid()
    {
      StepKeepsValid(State(), AskBootstrap(ch, started));
      sent := sent[ch := []];
      if kad {
        match started
        case Some(id) => queries := queries[Kad(id) := Entry.Bootstrap(ch)];
        case None => SendReply(ch, Failed(Refused));
      } else {
        SendReply(ch, Failed(NotBootstrapped));
      }
    }

    method Provide(ch: Channel, started: Option<int>)
      modifies this`queries, this`sent
      ensures State() == Step(old(State()), AskProvide(ch, started))
      ensures old(Valid() && Lawful(State(), AskProvide(ch, started))) ==> Valid()
    {
      StepKeepsValid(State(), AskProvide(ch, started));
      sent := sent[ch := []];
      if bootstrapped {
        if kad {
          match started
          case Some(id) => queries := queries[Kad(id) := StartProviding(ch)];
          case None => SendReply(ch, Failed(Refused));
        }
      } else {
        SendReply(ch, Failed(NotBootstrapped));
      }
    }

    method Put(ch: Channel, started: Option<int>)
      modifies this`queries, this`sent
      ensures State() == Step(old(State()), AskPut(ch, started))
      ensures old(Valid() && Lawful(State(), AskPut(ch, started))) ==> Valid()
    {
      StepKeepsValid(State(), AskPut(ch, started));
      sent := sent[ch := []];
      if bootstrapped {
        if kad {
          match started
          case Some(id) => queries := queries[Kad(id) := PutRecord(ch)];
          case None => SendReply(ch, Failed(Refused));
        }
      } else {
        SendReply(ch, Failed(NotBootstrapped));
      }
    }

    method Providers(ch: Channel, id: int)
      modifies this`queries, this`sent
      ensures State() == Step(old(State()), AskProviders(ch, id))
      ensures old(Valid() && Lawful(State(), AskProviders(ch, id))) ==> Valid()
    {
      StepKeepsValid(State(), AskProviders(ch, id));
      sent := sent[ch := []];
      if bootstrapped {
        if kad {
          queries := queries[Kad(id) := GetProviders({}, ch)];
        }
      } else {
        SendReply(ch, Failed(NotBootstrapped));
      }
    }

    method Records(ch: Channel, quorum: Quorum, id: int)
      modifies this`queries, this`sent
      ensures State() == Step(old(State()), AskRecord(ch, quorum, id))
      ensures old(Valid() && Lawful(State(), AskRecord(ch, quorum, id))) ==> Valid()
    {
      StepKeepsValid(State(), AskRecord(ch, quorum, id));
      sent := sent[ch := []];
      if bootstrapped {
        if kad {
          var size := match quorum
            case One => 1
            case Majority => K_VALUE / 2 + 1
            case All => K_VALUE
            case Count(n) => n;
          queries := queries[Kad(id) := GetRecord(size, [], ch)];
        }
      } else {
        SendReply(ch, Failed(NotBootstrapped));
      }
    }

    method Get(ch: Channel, id: int)
      requires bitswap
      modifies this`queries, this`sent
      ensures State() == Step(old(State()), AskGet(ch, id))
      ensures old(Valid() && Lawful(State(), AskGet(ch, id))) ==> Valid()
    {
      StepKeepsValid(State(), AskGet(ch, id));
      sent := sent[ch := []];
      queries := queries[Bitswap(id) := Entry.Get(ch)];
    }

    method Sync(ch: Channel, id: int)
      requires bitswap
      modifies this`queries, this`sent
      ensures State() == Step(old(State()), AskSync(ch, id))
      ensures old(Valid() && Lawful(State(), AskSync(ch, id))) ==> Valid()
    {
      StepKeepsValid(State(), AskSync(ch, id));
      sent := sent[ch := []];
      queries := queries[Bitswap(id) := Entry.Sync(ch)];
    }

    method CancelQuery(id: QueryId)
      requires id.Bitswap? ==> bitswap
      modifies this`queries, this`cancelled
      ensures State() == Step(old(State()), Cancel(id))
      ensures old(Valid() && Lawful(State(), Cancel(id))) ==> Valid()
    {
      StepKeepsValid(State(), Cancel(id));
      var e := Remove(id);
      if e.Some? {
        cancelled := cancelled + {e.value.ch};
      }
    }

    /** The service ends: the table goes away, and with it every channel that waits in it. */
    method Shutdown()
      modifies this`queries, this`abandoned, this`stopped
      ensures State() == Step(old(State()), Stop)
      ensures old(Valid() && Lawful(State(), Stop)) ==> Valid()
    {
      StepKeepsValid(State(), Stop);
      abandoned, stopped := abandoned + Waiting(State()), true;
      queries := map[];
    }

    // ---------- events ----------

    method InjectBitswapProgress(n: int, missing: nat)
      modifies this`sent
      ensures State() == Step(old(State()), BitswapProgress(n, missing))
      ensures old(Valid() && Lawful(State(), BitswapProgress(n, missing))) ==> Valid()
    {
      StepKeepsValid(State(), BitswapProgress(n, missing));
      var id := Bitswap(n);
      if id in queries && queries[id].Sync? {
        var ch := queries[id].ch;
        sent := sent[ch := (if ch in sent then sent[ch] else []) + [Progress(missing)]];
      }
    }

    method InjectBitswapComplete(n: int, ok: bool)
      modifies this`queries, this`sent
      ensures State() == Step(old(State()), BitswapComplete(n, ok))
      ensures old(Valid() && Lawful(State(), BitswapComplete(n, ok))) ==> Valid()
    {
      StepKeepsValid(State(), BitswapComplete(n, ok));
      var result := if ok then Unit else Failed(QueryFailed);
      var id := Bitswap(n);
      Resolve(id, id in queries && (queries[id].Get? || queries[id].Sync?), result);
    }

    method InjectKadEvent(n: int, result: KadResult, last: bool)
      modifies this`queries, this`sent, this`bootstrapped
      ensures State() == Step(old(State()), KadEvent(n, result, last))
      ensures old(Valid() && Lawful(State(), KadEvent(n, result, last))) ==> Valid()
    {
      StepKeepsValid(State(), KadEvent(n, result, last));
      var id := Kad(n);
      if IsError(result) {
        ConcludeError(id, result, last);
        return;
      }
      match result
      case BootstrapOk(remaining) => Bootstrapping(id, remaining, last);
      case ProvidersOk(providers) => GatherProviders(id, providers, last);
      case RecordOk(record) => GatherRecord(id, record, last);
      case ClosestOk(_) => Conclude(id, result, last);
      case ProvideOk => Conclude(id, result, last);
      case PutOk => Conclude(id, result, last);
      case Republished =>
    }

    /** A step of the bootstrap, of which only the last one counts. */
    method Bootstrapping(id: QueryId, remaining: nat, last: bool)
      requires id.Kad?
      modifies this`queries, this`sent, this`bootstrapped
      ensures State() == OnKad(old(State()), id.n, BootstrapOk(remaining), last)
    {
      if remaining == 0 {
        bootstrapped := true;
        Resolve(id, id in queries && queries[id].Bootstrap?, Unit);
      }
    }

    /** Other results that end their query well. */
    method Conclude(id: QueryId, result: KadResult, last: bool)
      requires id.Kad? && (result.ClosestOk? || result.ProvideOk? || result.PutOk?)
      modifies this`queries, this`sent
      ensures State() == OnKad(old(State()), id.n, result, last)
    {
      match result
      case ClosestOk(peers) => Resolve(id, id in queries && queries[id].GetClosestPeers?, PeerList(peers));
      case ProvideOk => Resolve(id, id in queries && queries[id].StartProviding?, Unit);
      case PutOk => Resolve(id, id in queries && queries[id].PutRecord?, Unit);
    }

    /** Results that end their query with an error. */
    method ConcludeError(id: QueryId, result: KadResult, last: bool)
      requires id.Kad? && IsError(result)
      modifies this`queries, this`sent
      ensures State() == OnKad(old(State()), id.n, result, last)
    {
      var right := false;
      if id in queries {
        var e := queries[id];
        right := match result
          case BootstrapErr => e.Bootstrap?
          case ClosestErr => e.GetClosestPeers?
          case ProvidersErr => e.GetProviders?
          case ProvideErr => e.StartProviding?
          case RecordErr => e.GetRecord?
          case PutErr => e.PutRecord?;
      }
      Resolve(id, right, Failed(QueryFailed));
    }

    method GatherProviders(id: QueryId, providers: Option<set<PeerId>>, last: bool)
      requires id.Kad?
      modifies this`queries, this`sent
      ensures State() == OnKad(old(State()), id.n, ProvidersOk(providers), last)
    {
      if id in queries && queries[id].GetProviders? {
        var found := queries[id].found;
        if providers.Some? {
          found := found + providers.value;
        }
        assert found == queries[id].found + (if providers.Some? then providers.value else {});
        queries := queries[id := queries[id].(found := found)];
        if last {
          var e := Remove(id);
          assert queries == old(queries) - {id};
          SendReply(e.value.ch, ProviderSet(e.value.found));
        }
      }
    }

    method GatherRecord(id: QueryId, record: Option<Record>, last: bool)
      requires id.Kad?
      modifies this`queries, this`sent
      ensures State() == OnKad(old(State()), id.n, RecordOk(record), last)
    {
      if id in queries && queries[id].GetRecord? {
        var records := queries[id].records;
        if record.Some? {
          records := records + [record.value];
        }
        assert records == queries[id].records + (if record.Some? then [record.value] else []);
        queries := queries[id := queries[id].(records := records)];
        if last || |records| >= queries[id].quorum {
          var e := Remove(id);
          assert queries == old(queries) - {id};
          SendReply(e.value.ch, RecordList(e.value.records));
        }
      }
    }
  }

  // ---------- waiting for a sync query ----------

  /** What one poll of the channel yields: an item, the end of a closed channel, or nothing yet. */
  datatype Next = Item(m: Message) | Ended | NotYet

  datatype Polled = Ready(answer: Answer) | Pending

  datatype Rx = Rx(items: seq<Message>, open: bool)

  function PollNext(rx: Rx): (Next, Rx) {
    if rx.items != [] then (Item(rx.items[0]), rx.(items := rx.items[1..]))
    else (if rx.open then NotYet else Ended, rx)
  }

  /** The outcome of the polling loop within n iterations, if it has one by then. */
  function Loop(rx: Rx, n: nat): Option<Polled>
    decreases n
  {
    if n == 0 then None
    else
      var (next, rx') := PollNext(rx);
      match next
      case Item(Reply(answer)) => Some(Ready(answer))
      case Item(Progress(_)) => Loop(rx', n - 1)
      case Ended => Loop(rx', n - 1)
      case NotYet => Some(Pending)
  }

  predicate HasReply(ms: seq<Message>) {
    exists i :: 0 <= i < |ms| && ms[i].Reply?
  }

  function FirstReply(ms: seq<Message>): Answer
    requires HasReply(ms)
  {
    if ms[0].Reply? then ms[0].answer else FirstReply(ms[1..])
  }

  /** What is left in the channel once everything up to the first reply was taken. */
  function AfterReply(ms: seq<Message>): seq<Message> {
    if ms == [] then [] else if ms[0].Reply? then ms[1..] else AfterReply(ms[1..])
  }

  lemma {:induction false} LoopOutcome(rx: Rx, n: nat)
    ensures n > |rx.items| && HasReply(rx.items) ==> Loop(rx, n) == Some(Ready(FirstReply(rx.items)))
    ensures n > |rx.items| && !HasReply(rx.items) && rx.open ==> Loop(rx, n) == Some(Pending)
    ensures !HasReply(rx.items) && !rx.open ==> Loop(rx, n) == None
    decreases n
  {
    if n == 0 {
    } else {
      var rx' := PollNext(rx).1;
      if rx.items != [] && rx.items[0].Progress? {
        assert HasReply(rx.items) <==> HasReply(rx'.items) by {
          if HasReply(rx.items) {
            var i :| 0 <= i < |rx.items| && rx.items[i].Reply?;
            assert rx'.items[i - 1].Reply?;
          }
          if HasReply(rx'.items) {
            var i :| 0 <= i < |rx'.items| && rx'.items[i].Reply?;
            assert rx.items[i + 1].Reply?;
          }
        }
        LoopOutcome(rx', n - 1);
      } else if rx.items == [] && !rx.open {
        LoopOutcome(rx', n - 1);
      }
    }
  }

  /** Polling comes to an end if and only if the channel is open or holds a reply; else it spins for ever. */
  lemma PollTerminatesIff(rx: Rx)
    ensures (exists n: nat :: Loop(rx, n).Some?) <==> rx.open || HasReply(rx.items)
  {
    LoopOutcome(rx, |rx.items| + 1);
    if n: nat :| Loop(rx, n).Some? {
      LoopOutcome(rx, n);
    }
  }

  class SyncQuery {
    var items: seq<Message>
    var open: bool

    constructor (items: seq<Message>, open: bool)
      ensures this.items == items && this.open == open
    {
      this.items, this.open := items, open;
    }

    /** Drains the channel up to the reply; the caller's channel must be open or hold one. */
    method Poll() returns (r: Polled)
      requires open || HasReply(items)
      modifies this`items
      ensures Loop(Rx(old(items), open), |old(items)| + 1) == Some(r)
      ensures HasReply(old(items)) <==> r.Ready?
      ensures items == AfterReply(old(items))
    {
      while true
        invariant open || HasReply(items)
        invariant HasReply(items) <==> HasReply(old(items))
        invariant HasReply(items) ==> FirstReply(items) == FirstReply(old(items))
        invariant AfterReply(items) == AfterReply(old(items))
        decreases |items|
      {
        LoopOutcome(Rx(old(items), open), |old(items)| + 1);
        if items == [] {
          return Pending;
        }
        var m := items[0];
        ReplyInTail(items);
        items := items[1..];
        if m.Reply? {
          return Ready(m.answer);
        }
      }
    }
  }

  lemma ReplyInTail(ms: seq<Message>)
    requires ms != []
    ensures ms[0].Reply? ==> HasReply(ms) && FirstReply(ms) == ms[0].answer
    ensures !ms[0].Reply? ==> (HasReply(ms) <==> HasReply(ms[1..]))
  {
    if HasReply(ms) && !ms[0].Reply? {
      var i :| 0 <= i < |ms| && ms[i].Reply?;
      assert ms[1..][i - 1].Reply?;
    }
    if HasReply(ms[1..]) {
      var i :| 0 <= i < |ms[1..]| && ms[1..][i].Reply?;
      assert ms[i + 1].Reply?;
    }
  }

  lemma PollOutcome(ms: seq<Message>, open: bool, k: nat)
    requires if open then OnlyProgress(ms) else Complete(ms)
    requires k <= |ms| && OnlyProgress(ms[..k])
    ensures var rx := Rx(ms[k..], open);
      && (exists n: nat :: Loop(rx, n).Some?)
      && Loop(rx, |rx.items| + 1) == Some(if open then Pending else Ready(ms[|ms| - 1].answer))
  {
    var rx := Rx(ms[k..], open);
    if !open {
      assert k != |ms|;
      var tail := ms[k..];
      assert tail[|tail| - 1] == ms[|ms| - 1];
      assert tail[..|tail| - 1] == ms[..|ms| - 1][k..];
      LastIsFirst(tail);
    }
    LoopOutcome(rx, |rx.items| + 1);
    PollTerminatesIff(rx);
  }

  /** Whatever part of its progress was consumed, polling ends, and yields the one reply once there is one. */
  ghost predicate PollsSafely(s: Net, ch: Channel, k: nat)
    requires ch in s.sent && k <= |s.sent[ch]|
  {
    var ms, rx := s.sent[ch], Rx(s.sent[ch][k..], IsPending(s, ch));
    && (if IsPending(s, ch) then OnlyProgress(ms) else Complete(ms))
    && (exists n: nat :: Loop(rx, n).Some?)
    && Loop(rx, |rx.items| + 1) == Some(if IsPending(s, ch) then Pending else Ready(ms[|ms| - 1].answer))
  }

  lemma InvPollsSafely(s: Net, ch: Channel, k: nat)
    requires Inv(s) && ch in s.sent && !IsDropped(s, ch) && k <= |s.sent[ch]| && OnlyProgress(s.sent[ch][..k])
    ensures PollsSafely(s, ch, k)
  {
    PollOutcome(s.sent[ch], IsPending(s, ch), k);
  }

  /** An entry dropped unanswered leaves a closed channel without a reply. */
  lemma InvSpins(s: Net, ch: Channel, k: nat, n: nat)
    requires Inv(s) && ch in s.sent && IsDropped(s, ch) && k <= |s.sent[ch]|
    ensures !IsPending(s, ch) && Loop(Rx(s.sent[ch][k..], false), n) == None
  {
    assert OnlyProgress(s.sent[ch]);
    assert !HasReply(s.sent[ch][k..]);
    LoopOutcome(Rx(s.sent[ch][k..], false), n);
  }

  /**
   In every reachable state a sync query whose entry was not dropped unanswered can be polled:
   whatever part of its progress was consumed, the loop ends, and once answered it yields that
   one reply.
   */
  lemma PollingIsSafe(kad: bool, bitswap: bool, ins: seq<Input>, ch: Channel, k: nat)
    requires Legal(Initial(kad, bitswap), ins)
    requires var s := After(Initial(kad, bitswap), ins);
      && ch in s.sent && !IsDropped(s, ch) && k <= |s.sent[ch]|
      && OnlyProgress(s.sent[ch][..k])
    ensures PollsSafely(After(Initial(kad, bitswap), ins), ch, k)
  {
    ReachableInv(kad, bitswap, ins);
    InvPollsSafely(After(Initial(kad, bitswap), ins), ch, k);
  }

  /** Polling the channel ends at some point. */
  ghost predicate PollEnds(s: Net, ch: Channel, k: nat)
    requires ch in s.sent && k <= |s.sent[ch]|
  {
    exists n: nat :: Loop(Rx(s.sent[ch][k..], IsPending(s, ch)), n).Some?
  }

  /**
   In every reachable state, polling the future of a query that is not cancelled (which happens
   only when that future is dropped) ends if and only if the service did not end under it.
   */
  lemma PollEndsIff(kad: bool, bitswap: bool, ins: seq<Input>, ch: Channel, k: nat)
    requires Legal(Initial(kad, bitswap), ins)
    requires var s := After(Initial(kad, bitswap), ins);
      && ch in s.sent && ch !in s.cancelled && k <= |s.sent[ch]|
      && OnlyProgress(s.sent[ch][..k])
    ensures var s := After(Initial(kad, bitswap), ins);
      PollEnds(s, ch, k) <==> ch !in s.abandoned
  {
    ReachableInv(kad, bitswap, ins);
    InvPollEndsIff(After(Initial(kad, bitswap), ins), ch, k);
  }

  lemma InvPollEndsIff(s: Net, ch: Channel, k: nat)
    requires Inv(s) && ch in s.sent && ch !in s.cancelled && k <= |s.sent[ch]| && OnlyProgress(s.sent[ch][..k])
    ensures PollEnds(s, ch, k) <==> ch !in s.abandoned
  {
    if ch in s.abandoned {
      forall n: nat ensures Loop(Rx(s.sent[ch][k..], IsPending(s, ch)), n) == None {
        InvSpins(s, ch, k, n);
      }
    } else {
      InvPollsSafely(s, ch, k);
    }
  }

  /** When the service ends, polling any query that still waits spins for ever, whatever was consumed of it. */
  lemma StopSpins(s: Net, ch: Channel, k: nat, n: nat)
    requires Inv(s) && IsPending(s, ch)
    ensures ch in s.sent && ch in End(s).abandoned && ch !in End(s).cancelled
    ensures k <= |s.sent[ch]| ==> Loop(Rx(End(s).sent[ch][k..], false), n) == None
  {
    EndKeepsInv(s);
    assert ch in Waiting(s);
    if k <= |s.sent[ch]| {
      InvSpins(End(s), ch, k, n);
    }
  }

  /** It takes two inputs: a sync query, and the end of the service while its future is still held. */
  lemma SpinIsReachable(kad: bool, ch: Channel, id: int, n: nat)
    ensures var ins := [AskSync(ch, id), Stop];
      && Legal(Initial(kad, true), ins)
      && var s := After(Initial(kad, true), ins);
         && ch in s.sent && ch in s.abandoned && ch !in s.cancelled
         && Loop(Rx(s.sent[ch], false), n) == None
  {
    var x, s := AskSync(ch, id), Initial(kad, true);
    assert [x, Stop][..1] == [x] && [x][..0] == [];
    assert Legal(s, []) && After(s, []) == s;
    assert Legal(s, [x]) && After(s, [x]) == Step(s, x);
    StepKeepsInv(s, x);
    assert Bitswap(id) in Step(s, x).queries;
    StopSpins(Step(s, x), ch, 0, n);
  }

  lemma {:induction false} LastIsFirst(ms: seq<Message>)
    requires |ms| > 0 && ms[|ms| - 1].Reply? && OnlyProgress(ms[..|ms| - 1])
    ensures HasReply(ms) && FirstReply(ms) == ms[|ms| - 1].answer
  {
    if |ms| == 1 {
    } else {
      assert ms[..|ms| - 1][0].Progress?;
      assert ms[1..][..|ms| - 2] == ms[..|ms| - 1][1..];
      LastIsFirst(ms[1..]);
      assert HasReply(ms);
    }
  }
}
