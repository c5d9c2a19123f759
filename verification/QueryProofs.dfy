/** No request is lost, none is answered twice, and what the answers hold. */
module QueryProofs {
  import opened Options
  import opened Multiaddrs
  import opened Queries

  // ---------- each primitive keeps the invariant ----------

  lemma PendingAfterInsert(s: Net, id: QueryId, e: Entry, ch: Channel)
    requires id in s.queries ==> s.queries[id].ch == e.ch
    ensures IsPending(Insert(s, id, e), ch) <==> IsPending(s, ch) || ch == e.ch
  {
    var s' := Insert(s, id, e);
    assert id in s'.queries;
    if IsPending(s, ch) {
      var i :| i in s.queries && s.queries[i].ch == ch;
      assert i in s'.queries && s'.queries[i].ch == ch;
    }
  }

  lemma PendingAfterRemove(s: Net, id: QueryId, ch: Channel)
    requires Inv(s) && id in s.queries
    ensures IsPending(s.(queries := s.queries - {id}), ch) <==> IsPending(s, ch) && ch != s.queries[id].ch
  {
    var q' := s.queries - {id};
    if IsPending(s, ch) && ch != s.queries[id].ch {
      var i :| i in s.queries && s.queries[i].ch == ch;
      assert i in q';
    }
  }

  lemma OpenAnswered(s: Net, ch: Channel, answer: Answer)
    requires Inv(s) && ch !in s.sent
    ensures Inv(Send(Open(s, ch), ch, Reply(answer)))
  {
    var s' := Send(Open(s, ch), ch, Reply(answer));
    assert s'.sent[ch] == [Reply(answer)];
    assert forall c :: IsPending(s', c) <==> IsPending(s, c);
  }

  lemma OpenInserted(s: Net, ch: Channel, id: QueryId, e: Entry)
    requires Inv(s) && ch !in s.sent && id !in s.queries && EntryOk(id, e) && e.ch == ch
    ensures Inv(Insert(Open(s, ch), id, e))
  {
    forall c ensures IsPending(Insert(Open(s, ch), id, e), c) <==> IsPending(s, c) || c == ch {
      PendingAfterInsert(Open(s, ch), id, e, c);
      assert IsPending(Open(s, ch), c) <==> IsPending(s, c);
    }
  }

  lemma Updated(s: Net, id: QueryId, e: Entry)
    requires Inv(s) && id in s.queries && EntryOk(id, e) && e.ch == s.queries[id].ch
    ensures Inv(Insert(s, id, e))
  {
    assert IsPending(s, e.ch);
    forall c ensures IsPending(Insert(s, id, e), c) <==> IsPending(s, c) {
      PendingAfterInsert(s, id, e, c);
    }
  }

  lemma Finished(s: Net, id: QueryId, answer: Answer)
    requires Inv(s)
    ensures Inv(Finish(s, id, true, answer))
  {
    if id in s.queries {
      var ch := s.queries[id].ch;
      var s' := Finish(s, id, true, answer);
      assert IsPending(s, ch);
      assert s'.sent[ch] == s.sent[ch] + [Reply(answer)];
      assert s'.sent[ch][..|s'.sent[ch]| - 1] == s.sent[ch];
      forall c ensures IsPending(s', c) <==> IsPending(s, c) && c != ch {
        PendingAfterRemove(s, id, c);
      }
    }
  }

  lemma Advanced(s: Net, id: QueryId, missing: nat)
    requires Inv(s) && id in s.queries
    ensures Inv(Send(s, s.queries[id].ch, Progress(missing)))
  {
    var ch := s.queries[id].ch;
    var s' := Send(s, ch, Progress(missing));
    assert IsPending(s, ch);
    assert forall c :: IsPending(s', c) <==> IsPending(s, c);
  }

  lemma Withdrawn(s: Net, id: QueryId)
    requires Inv(s)
    ensures Inv(Step(s, Cancel(id)))
  {
    if id in s.queries {
      assert IsPending(s, s.queries[id].ch);
      forall c ensures IsPending(s.(queries := s.queries - {id}), c) <==> IsPending(s, c) && c != s.queries[id].ch {
        PendingAfterRemove(s, id, c);
      }
    }
  }

  lemma EndKeepsInv(s: Net)
    requires Inv(s)
    ensures Inv(End(s))
  {
    var s' := End(s);
    forall ch ensures !IsPending(s', ch) && (ch in Waiting(s) <==> IsPending(s, ch)) {
    }
  }

  lemma AskKeepsInv(s: Net, ch: Channel, started: Option<int>, e: Entry)
    requires Inv(s) && FreshKad(s, ch, started) && e.ch == ch && EntryOk(Kad(0), e)
    ensures Inv(WhenBootstrapped(Open(s, ch), ch, started, e))
    ensures s.kad ==> Inv(Start(Open(s, ch), ch, started, e))
  {
    OpenAnswered(s, ch, Failed(NotBootstrapped));
    OpenAnswered(s, ch, Failed(Refused));
    if started.Some? {
      OpenInserted(s, ch, Kad(started.value), e);
    }
  }

  lemma GatherKeepsInv(s: Net, id: QueryId, r: KadResult, last: bool)
    requires Inv(s) && id in s.queries && Matches(s.queries[id], r)
    ensures Inv(Gather(s, id, r, last))
  {
    var e := s.queries[id];
    if r.ProvidersOk? {
      var all := e.found + (if r.providers.Some? then r.providers.value else {});
      Finished(s, id, ProviderSet(all));
      Updated(s, id, e.(found := all));
    } else if r.RecordOk? {
      var all := e.records + (if r.record.Some? then [r.record.value] else []);
      Finished(s, id, RecordList(all));
      if |all| < e.quorum {
        Updated(s, id, e.(records := all));
      }
    }
  }

  lemma KadKeepsInv(s: Net, n: int, r: KadResult, last: bool)
    requires Inv(s) && Lawful(s, KadEvent(n, r, last))
    ensures Inv(OnKad(s, n, r, last))
  {
    if Takes(r) {
      Finished(s, Kad(n), AnswerOf(r));
      Latched(Finish(s, Kad(n), true, AnswerOf(r)));
    } else if Kad(n) in s.queries {
      GatherKeepsInv(s, Kad(n), r, last);
    }
  }

  lemma Latched(s: Net)
    requires Inv(s) && s.kad
    ensures Inv(s.(bootstrapped := true))
  {
    assert forall c :: IsPending(s.(bootstrapped := true), c) <==> IsPending(s, c);
  }

  lemma StepKeepsInv(s: Net, i: Input)
    requires Inv(s) && Lawful(s, i)
    ensures Inv(Step(s, i))
  {
    match i
    case AskBootstrap(ch, started) =>
      AskKeepsInv(s, ch, started, Bootstrap(ch));
      OpenAnswered(s, ch, Failed(NotBootstrapped));
    case AskProvide(ch, started) => AskKeepsInv(s, ch, started, StartProviding(ch));
    case AskPut(ch, started) => AskKeepsInv(s, ch, started, PutRecord(ch));
    case AskProviders(ch, id) => AskKeepsInv(s, ch, Some(id), GetProviders({}, ch));
    case AskRecord(ch, quorum, id) => AskKeepsInv(s, ch, Some(id), GetRecord(QuorumSize(quorum), [], ch));
    case AskGet(ch, id) => OpenInserted(s, ch, Bitswap(id), Get(ch));
    case AskSync(ch, id) => OpenInserted(s, ch, Bitswap(id), Sync(ch));
    case Cancel(id) => Withdrawn(s, id);
    case KadEvent(n, r, last) => KadKeepsInv(s, n, r, last);
    case BitswapProgress(n, missing) => if Bitswap(n) in s.queries { Advanced(s, Bitswap(n), missing); }
    case BitswapComplete(n, ok) => Finished(s, Bitswap(n), if ok then Unit else Failed(QueryFailed));
    case Stop => EndKeepsInv(s);
  }

  lemma {:induction false} ReachableInv(kad: bool, bitswap: bool, ins: seq<Input>)
    requires Legal(Initial(kad, bitswap), ins)
    ensures Inv(After(Initial(kad, bitswap), ins))
  {
    if ins == [] {
    } else {
      ReachableInv(kad, bitswap, ins[..|ins| - 1]);
      StepKeepsInv(After(Initial(kad, bitswap), ins[..|ins| - 1]), ins[|ins| - 1]);
    }
  }

  // ---------- no request is lost ----------

  ghost predicate IsAnswered(s: Net, ch: Channel)
    requires ch in s.sent
  {
    exists i :: 0 <= i < |s.sent[ch]| && s.sent[ch][i].Reply?
  }

  ghost predicate IsLost(s: Net, ch: Channel)
    requires ch in s.sent
  {
    !IsPending(s, ch) && !IsAnswered(s, ch) && !IsDropped(s, ch)
  }

  /**
   Exactly one of waiting in the table, answered by a single reply that is the last message,
   cancelled, and abandoned at the end of the service.
   */
  ghost predicate Accounted(s: Net, ch: Channel)
    requires ch in s.sent
  {
    && !IsLost(s, ch)
    && !(IsPending(s, ch) && IsAnswered(s, ch))
    && !(IsPending(s, ch) && IsDropped(s, ch))
    && !(IsAnswered(s, ch) && IsDropped(s, ch))
    && !(ch in s.cancelled && ch in s.abandoned)
    && (IsAnswered(s, ch) ==> Complete(s.sent[ch]))
  }

  lemma InvAccounts(s: Net, ch: Channel)
    requires Inv(s) && ch in s.sent
    ensures Accounted(s, ch)
  {
    if !IsPending(s, ch) && !IsDropped(s, ch) {
      assert Complete(s.sent[ch]);
      assert s.sent[ch][|s.sent[ch]| - 1].Reply?;
    }
  }

  /**
   In every reachable state each reply channel is waiting, answered, cancelled or abandoned, and
   only one of these.
   */
  lemma NoRequestIsLost(kad: bool, bitswap: bool, ins: seq<Input>, ch: Channel)
    requires Legal(Initial(kad, bitswap), ins)
    requires ch in After(Initial(kad, bitswap), ins).sent
    ensures Accounted(After(Initial(kad, bitswap), ins), ch)
  {
    ReachableInv(kad, bitswap, ins);
    InvAccounts(After(Initial(kad, bitswap), ins), ch);
  }

  lemma FinishedEntry(s: Net, id: QueryId, right: bool, answer: Answer)
    requires Inv(s) && id in s.queries
    ensures var s', ch := Finish(s, id, right, answer), s.queries[id].ch;
      && !IsPending(s', ch) && !IsDropped(s', ch)
      && ch in s'.sent && (IsAnswered(s', ch) <==> right)
  {
    var s', ch := Finish(s, id, right, answer), s.queries[id].ch;
    assert IsPending(s, ch);
    assert OnlyProgress(s.sent[ch]);
    PendingAfterRemove(s, id, ch);
    if right {
      assert s'.sent[ch][|s.sent[ch]|].Reply?;
    }
  }

  lemma GatheredEntry(s: Net, id: QueryId, r: KadResult, last: bool)
    requires Inv(s) && id in s.queries && Matches(s.queries[id], r)
    ensures s.queries[id].ch in Gather(s, id, r, last).sent
    ensures !IsLost(Gather(s, id, r, last), s.queries[id].ch)
  {
    GatherKeepsInv(s, id, r, last);
    assert IsPending(s, s.queries[id].ch);
    InvAccounts(Gather(s, id, r, last), s.queries[id].ch);
  }

  lemma LostDespiteLatch(s: Net, latch: bool, ch: Channel)
    requires ch in s.sent
    ensures IsLost(s.(bootstrapped := latch), ch) <==> IsLost(s, ch)
  {
    assert IsPending(s.(bootstrapped := latch), ch) <==> IsPending(s, ch);
  }

  lemma TakenLoss(s: Net, n: int, r: KadResult, last: bool)
    requires Inv(s) && Kad(n) in s.queries && Takes(r)
    ensures s.queries[Kad(n)].ch in OnKad(s, n, r, last).sent
    ensures IsLost(OnKad(s, n, r, last), s.queries[Kad(n)].ch) <==> !Matches(s.queries[Kad(n)], r)
  {
    var e := s.queries[Kad(n)];
    FinishedEntry(s, Kad(n), Matches(e, r), AnswerOf(r));
    LostDespiteLatch(Finish(s, Kad(n), Matches(e, r), AnswerOf(r)), s.bootstrapped || r.BootstrapOk?, e.ch);
  }

  /** A result loses the request waiting under its id exactly when it takes the entry and is of another kind. */
  lemma MismatchLosesRequest(s: Net, n: int, r: KadResult, last: bool)
    requires Inv(s) && Kad(n) in s.queries
    ensures s.queries[Kad(n)].ch in OnKad(s, n, r, last).sent
    ensures IsLost(OnKad(s, n, r, last), s.queries[Kad(n)].ch) <==> Takes(r) && !Matches(s.queries[Kad(n)], r)
  {
    if Takes(r) {
      TakenLoss(s, n, r, last);
    } else if Matches(s.queries[Kad(n)], r) {
      GatheredEntry(s, Kad(n), r, last);
    } else {
      assert IsPending(s, s.queries[Kad(n)].ch);
    }
  }

  /**
   A request that needs the network is dropped silently exactly when the latch is set without
   Kademlia, which no run reaches.
   */
  lemma SilentDrop(s: Net, ch: Channel, started: Option<int>, e: Entry)
    requires Inv(s.(bootstrapped := false)) && FreshKad(s, ch, started) && e.ch == ch
    ensures ch in WhenBootstrapped(Open(s, ch), ch, started, e).sent
    ensures IsLost(WhenBootstrapped(Open(s, ch), ch, started, e), ch) <==> s.bootstrapped && !s.kad
  {
    var s' := WhenBootstrapped(Open(s, ch), ch, started, e);
    if s.bootstrapped && !s.kad {
      assert forall id :: id in s.queries ==> s.queries[id].ch in s.(bootstrapped := false).sent;
    } else if s.bootstrapped && started.Some? {
      assert Kad(started.value) in s'.queries;
    } else {
      assert s'.sent[ch][0].Reply?;
    }
  }

  // ---------- nothing follows completion or cancellation ----------

  /** A channel that is not waiting is left alone. */
  ghost predicate Leaves(s: Net, s': Net, ch: Channel)
    requires ch in s.sent
  {
    && ch in s'.sent && s'.sent[ch] == s.sent[ch]
    && (forall id :: id in s'.queries ==> s'.queries[id].ch != ch)
    && (ch in s.cancelled <==> ch in s'.cancelled)
    && (ch in s.abandoned <==> ch in s'.abandoned)
  }

  lemma FinishLeaves(s: Net, id: QueryId, right: bool, answer: Answer, ch: Channel)
    requires ch in s.sent && forall i :: i in s.queries ==> s.queries[i].ch != ch
    ensures Leaves(s, Finish(s, id, right, answer), ch)
  {}

  lemma GatherLeaves(s: Net, id: QueryId, r: KadResult, last: bool, ch: Channel)
    requires id in s.queries && Matches(s.queries[id], r)
    requires ch in s.sent && forall i :: i in s.queries ==> s.queries[i].ch != ch
    ensures Leaves(s, Gather(s, id, r, last), ch)
  {
    var e := s.queries[id];
    if r.ProvidersOk? {
      FinishLeaves(s, id, true, ProviderSet(e.found + (if r.providers.Some? then r.providers.value else {})), ch);
    } else if r.RecordOk? {
      FinishLeaves(s, id, true, RecordList(e.records + (if r.record.Some? then [r.record.value] else [])), ch);
    }
  }

  lemma LatchLeaves(s: Net, s': Net, latch: bool, ch: Channel)
    requires ch in s.sent && Leaves(s, s', ch)
    ensures Leaves(s, s'.(bootstrapped := latch), ch)
  {}

  lemma KadLeaves(s: Net, n: int, r: KadResult, last: bool, ch: Channel)
    requires ch in s.sent && forall i :: i in s.queries ==> s.queries[i].ch != ch
    ensures Leaves(s, OnKad(s, n, r, last), ch)
  {
    if Takes(r) {
      var right := Kad(n) in s.queries && Matches(s.queries[Kad(n)], r);
      FinishLeaves(s, Kad(n), right, AnswerOf(r), ch);
      LatchLeaves(s, Finish(s, Kad(n), right, AnswerOf(r)), s.bootstrapped || r.BootstrapOk?, ch);
    } else if Kad(n) in s.queries && Matches(s.queries[Kad(n)], r) {
      GatherLeaves(s, Kad(n), r, last, ch);
    }
  }

  lemma StepOnlyTouchesPending(s: Net, i: Input, ch: Channel)
    requires Lawful(s, i) && ch in s.sent && !IsPending(s, ch)
    ensures Leaves(s, Step(s, i), ch)
  {
    assert forall id :: id in s.queries ==> s.queries[id].ch != ch;
    match i
    case KadEvent(n, r, last) => KadLeaves(s, n, r, last, ch);
    case BitswapComplete(n, ok) =>
      var right := Bitswap(n) in s.queries && (s.queries[Bitswap(n)].Get? || s.queries[Bitswap(n)].Sync?);
      FinishLeaves(s, Bitswap(n), right, if ok then Unit else Failed(QueryFailed), ch);
    case _ =>
  }

  /** A channel that was answered, cancelled or abandoned stays as it is for the rest of every run. */
  lemma {:induction false} SettledForGood(s: Net, ins: seq<Input>, ch: Channel)
    requires Inv(s) && Legal(s, ins) && ch in s.sent && !IsPending(s, ch)
    ensures Inv(After(s, ins))
    ensures ch in After(s, ins).sent && After(s, ins).sent[ch] == s.sent[ch] && !IsPending(After(s, ins), ch)
  {
    if ins == [] {
    } else {
      var n := |ins| - 1;
      SettledForGood(s, ins[..n], ch);
      StepKeepsInv(After(s, ins[..n]), ins[n]);
      StepOnlyTouchesPending(After(s, ins[..n]), ins[n], ch);
    }
  }

  // ---------- what the answers hold ----------

  /** The records found for a query since it was asked, in order of arrival. */
  function FoundRecords(ins: seq<Input>, id: int): seq<Record> {
    if ins == [] then []
    else
      var n := |ins| - 1;
      if ins[n].AskRecord? && ins[n].id == id then []
      else
        var before := FoundRecords(ins[..n], id);
        if ins[n].KadEvent? && ins[n].id == id && ins[n].result.RecordOk? && ins[n].result.record.Some?
        then before + [ins[n].result.record.value] else before
  }

  /** All providers found for a query since it was asked. */
  function FoundProviders(ins: seq<Input>, id: int): set<PeerId> {
    if ins == [] then {}
    else
      var n := |ins| - 1;
      if ins[n].AskProviders? && ins[n].id == id then {}
      else
        var before := FoundProviders(ins[..n], id);
        if ins[n].KadEvent? && ins[n].id == id && ins[n].result.ProvidersOk? && ins[n].result.providers.Some?
        then before + ins[n].result.providers.value else before
  }

  ghost predicate Gathered(s: Net, ins: seq<Input>, id: int) {
    Kad(id) in s.queries ==>
      && (s.queries[Kad(id)].GetRecord? ==> s.queries[Kad(id)].records == FoundRecords(ins, id))
      && (s.queries[Kad(id)].GetProviders? ==> s.queries[Kad(id)].found == FoundProviders(ins, id))
  }

  lemma {:induction false} EntriesGather(kad: bool, bitswap: bool, ins: seq<Input>, id: int)
    requires Legal(Initial(kad, bitswap), ins)
    ensures Gathered(After(Initial(kad, bitswap), ins), ins, id)
  {
    if ins == [] {
    } else {
      var n := |ins| - 1;
      EntriesGather(kad, bitswap, ins[..n], id);
      GatherStep(After(Initial(kad, bitswap), ins[..n]), ins, id);
    }
  }

  lemma OtherEntriesStay(s: Net, i: Input, id: int)
    requires Lawful(s, i) && Kad(id) in s.queries && !(i.KadEvent? && i.id == id)
    ensures var s' := Step(s, i); Kad(id) in s'.queries ==> s'.queries[Kad(id)] == s.queries[Kad(id)]
  {
    if i.KadEvent? {
      KadTouchesOne(s, i.id, i.result, i.last, Kad(id));
    }
  }

  lemma KadTouchesOne(s: Net, n: int, r: KadResult, last: bool, id: QueryId)
    requires id != Kad(n) && id in s.queries
    ensures var s' := OnKad(s, n, r, last); id in s'.queries ==> s'.queries[id] == s.queries[id]
  {}

  lemma GatherStep(s: Net, ins: seq<Input>, id: int)
    requires ins != [] && Lawful(s, ins[|ins| - 1]) && Gathered(s, ins[..|ins| - 1], id)
    ensures Gathered(Step(s, ins[|ins| - 1]), ins, id)
  {
    var i := ins[|ins| - 1];
    if i.KadEvent? && i.id == id {
      GatherOwn(s, ins, id);
    } else if Kad(id) in s.queries {
      OtherEntriesStay(s, i, id);
    }
  }

  lemma GatherOwn(s: Net, ins: seq<Input>, id: int)
    requires ins != [] && Lawful(s, ins[|ins| - 1]) && Gathered(s, ins[..|ins| - 1], id)
    requires ins[|ins| - 1].KadEvent? && ins[|ins| - 1].id == id
    ensures Gathered(Step(s, ins[|ins| - 1]), ins, id)
  {}

  lemma RecordStep(s: Net, id: int, record: Option<Record>, last: bool)
    requires Inv(s) && Kad(id) in s.queries && s.queries[Kad(id)].GetRecord?
    ensures var s' := Step(s, KadEvent(id, RecordOk(record), last));
      var GetRecord(quorum, records, ch) := s.queries[Kad(id)];
      var found := records + (if record.Some? then [record.value] else []);
      && |records| < quorum && ch in s.sent && ch in s'.sent
      && (if Kad(id) in s'.queries then !last && |found| < quorum && s'.queries[Kad(id)] == GetRecord(quorum, found, ch)
          else s'.sent[ch] == s.sent[ch] + [Reply(RecordList(found))]
               && |found| <= quorum && (|found| < quorum ==> last))
  {}

  lemma ProvidersStep(s: Net, id: int, providers: Option<set<PeerId>>, last: bool)
    requires Inv(s) && Kad(id) in s.queries && s.queries[Kad(id)].GetProviders?
    ensures var s' := Step(s, KadEvent(id, ProvidersOk(providers), last));
      var GetProviders(before, ch) := s.queries[Kad(id)];
      var found := before + (if providers.Some? then providers.value else {});
      && ch in s.sent && ch in s'.sent
      && (if last then Kad(id) !in s'.queries && s'.sent[ch] == s.sent[ch] + [Reply(ProviderSet(found))]
          else Kad(id) in s'.queries && s'.queries[Kad(id)] == GetProviders(found, ch))
  {}

  lemma FoundAppend(ins: seq<Input>, i: Input, id: int)
    requires i.KadEvent? && i.id == id
    ensures i.result.RecordOk? ==>
      FoundRecords(ins + [i], id)
      == FoundRecords(ins, id) + (if i.result.record.Some? then [i.result.record.value] else [])
    ensures i.result.ProvidersOk? ==>
      FoundProviders(ins + [i], id)
      == FoundProviders(ins, id) + (if i.result.providers.Some? then i.result.providers.value else {})
  {
    assert (ins + [i])[..|ins|] == ins;
  }

  lemma LegalPrefix(s: Net, ins: seq<Input>, i: Input)
    requires Legal(s, ins + [i])
    ensures Legal(s, ins) && Lawful(After(s, ins), i)
  {
    assert (ins + [i])[..|ins|] == ins;
  }

  /**
   The reply to a record query holds exactly the records found since it was asked, in order of
   arrival: at most the quorum, and fewer only when the last step arrived.  While it waits it
   holds fewer than the quorum.
   */
  lemma RecordReply(kad: bool, bitswap: bool, ins: seq<Input>, id: int, record: Option<Record>, last: bool)
    requires Legal(Initial(kad, bitswap), ins + [KadEvent(id, RecordOk(record), last)])
    requires var s := After(Initial(kad, bitswap), ins); Kad(id) in s.queries && s.queries[Kad(id)].GetRecord?
    ensures var s := After(Initial(kad, bitswap), ins);
      var s' := Step(s, KadEvent(id, RecordOk(record), last));
      var GetRecord(quorum, records, ch) := s.queries[Kad(id)];
      var found := FoundRecords(ins + [KadEvent(id, RecordOk(record), last)], id);
      && records == FoundRecords(ins, id) && |records| < quorum
      && ch in s.sent && ch in s'.sent
      && (if Kad(id) in s'.queries then !last && |found| < quorum && s'.queries[Kad(id)] == GetRecord(quorum, found, ch)
          else s'.sent[ch] == s.sent[ch] + [Reply(RecordList(found))]
               && |found| <= quorum && (|found| < quorum ==> last))
  {
    var i := KadEvent(id, RecordOk(record), last);
    LegalPrefix(Initial(kad, bitswap), ins, i);
    ReachableInv(kad, bitswap, ins);
    EntriesGather(kad, bitswap, ins, id);
    FoundAppend(ins, i, id);
    RecordStep(After(Initial(kad, bitswap), ins), id, record, last);
  }

  /** The reply to a provider query is the union of everything found since it was asked. */
  lemma ProvidersReply(kad: bool, bitswap: bool, ins: seq<Input>, id: int, providers: Option<set<PeerId>>, last: bool)
    requires Legal(Initial(kad, bitswap), ins + [KadEvent(id, ProvidersOk(providers), last)])
    requires var s := After(Initial(kad, bitswap), ins); Kad(id) in s.queries && s.queries[Kad(id)].GetProviders?
    ensures var s := After(Initial(kad, bitswap), ins);
      var s' := Step(s, KadEvent(id, ProvidersOk(providers), last));
      var GetProviders(_, ch) := s.queries[Kad(id)];
      var found := FoundProviders(ins + [KadEvent(id, ProvidersOk(providers), last)], id);
      && ch in s.sent && ch in s'.sent
      && (if last then Kad(id) !in s'.queries && s'.sent[ch] == s.sent[ch] + [Reply(ProviderSet(found))]
          else Kad(id) in s'.queries && s'.queries[Kad(id)] == GetProviders(found, ch))
  {
    var i := KadEvent(id, ProvidersOk(providers), last);
    LegalPrefix(Initial(kad, bitswap), ins, i);
    ReachableInv(kad, bitswap, ins);
    EntriesGather(kad, bitswap, ins, id);
    FoundAppend(ins, i, id);
    ProvidersStep(After(Initial(kad, bitswap), ins), id, providers, last);
  }
}
