/** Redialling after simultaneous opens always comes to an end. */
module Redial {
  import opened Options
  import opened Multiaddrs
  import opened PeerInfos
  import opened Books
  import opened Swarms
  import opened Reachable

  // ---------- sums over multisets of dials ----------

  ghost function Pick(m: multiset<Dialling>): (d: Dialling)
    requires m != multiset{}
    ensures d in m
  {
    var d :| d in m; d
  }

  ghost function Sum(m: multiset<Dialling>, w: Dialling -> nat): nat {
    if m == multiset{} then 0 else w(Pick(m)) + Sum(m - multiset{Pick(m)}, w)
  }

  lemma {:induction false} SumInsert(m: multiset<Dialling>, d: Dialling, w: Dialling -> nat)
    ensures Sum(m + multiset{d}, w) == Sum(m, w) + w(d)
    decreases |m|
  {
    var m' := m + multiset{d};
    var e := Pick(m');
    if e == d {
      assert m' - multiset{e} == m;
    } else {
      assert m' - multiset{e} == m - multiset{e} + multiset{d};
      assert m == m - multiset{e} + multiset{e};
      SumInsert(m - multiset{e}, d, w);
      SumInsert(m - multiset{e}, e, w);
    }
  }

  lemma SumRemove(m: multiset<Dialling>, d: Dialling, w: Dialling -> nat)
    requires d in m
    ensures Sum(m, w) == Sum(m - multiset{d}, w) + w(d)
  {
    SumInsert(m - multiset{d}, d, w);
    assert m == m - multiset{d} + multiset{d};
  }

  // ---------- the measure ----------

  function PlainQueued(d: Dialling): nat {
    if d.handler.own.None? then 2 else 0
  }

  function PlainTaken(d: Dialling): nat {
    if d.handler.own.None? then 1 else 0
  }

  function ProbeQueued(d: Dialling): nat {
    if d.handler.own.Some? then 2 * d.handler.own.value.retries + 2 else 0
  }

  function ProbeTaken(d: Dialling): nat {
    if d.handler.own.Some? then 2 * d.handler.own.value.retries + 1 else 0
  }

  ghost function Queued(s: Sys): multiset<Dialling> {
    multiset(s.book.actions) + s.book.deferred
  }

  /** Outstanding dials of a peer as such; each may still turn into any number of validation dials. */
  ghost function Plain(s: Sys): nat {
    Sum(Queued(s), PlainQueued) + Sum(s.inflight, PlainTaken)
  }

  /** What the outstanding validation dials may still cost, with every retry they are allowed. */
  ghost function Budget(s: Sys): nat {
    Sum(Queued(s), ProbeQueued) + Sum(s.inflight, ProbeTaken)
  }

  ghost predicate Below(s': Sys, s: Sys) {
    Plain(s') < Plain(s) || (Plain(s') == Plain(s) && Budget(s') < Budget(s))
  }

  ghost predicate NotAbove(s': Sys, s: Sys) {
    Plain(s') < Plain(s) || (Plain(s') == Plain(s) && Budget(s') <= Budget(s))
  }

  /** No new command, nothing newly discovered, and no failure of a dial that another behaviour asked for. */
  predicate Undisturbed(step: Step) {
    !step.CmdDial? && !step.CmdDialAddress? && !step.Offered? && !step.GotIdentify? && !step.ForeignFailed?
  }

  /** A dial is handed to the swarm, or the swarm answers one. */
  predicate DialStep(step: Step) {
    step.TakeAction? || step.TakeDeferred? || step.Failed? || (step.Opened? && step.dial.Some?)
  }

  lemma TakingDecreases(s: Sys, s': Sys, d: Dialling)
    requires Queued(s) == Queued(s') + multiset{d} && s'.inflight == s.inflight + multiset{d}
    ensures Below(s', s)
  {
    SumInsert(Queued(s'), d, PlainQueued);
    SumInsert(Queued(s'), d, ProbeQueued);
    SumInsert(s.inflight, d, PlainTaken);
    SumInsert(s.inflight, d, ProbeTaken);
  }

  lemma {:induction false} RedialsArePlainFree(cfg: Config, m: multiset<Dialling>, p: PeerId,
    errors: seq<(Multiaddr, bool)>)
    ensures Sum(m + multiset(Redials(cfg, p, errors)), PlainQueued) == Sum(m, PlainQueued)
  {
    if errors == [] {
      assert m + multiset(Redials(cfg, p, errors)) == m;
    } else {
      var n := |errors| - 1;
      RedialsArePlainFree(cfg, m, p, errors[..n]);
      if errors[n].1 {
        var d := Books.Redial(p, errors[n].0, SIM_OPEN_RETRIES, cfg.keepAlive);
        assert multiset(Redials(cfg, p, errors)) == multiset(Redials(cfg, p, errors[..n])) + multiset{d};
        assert m + multiset(Redials(cfg, p, errors)) == m + multiset(Redials(cfg, p, errors[..n])) + multiset{d};
        SumInsert(m + multiset(Redials(cfg, p, errors[..n])), d, PlainQueued);
      } else {
        assert Redials(cfg, p, errors) == Redials(cfg, p, errors[..n]);
      }
    }
  }

  /** The next attempt at the address of a failed validation dial. */
  function Again(h: Handler, p: PeerId): Dialling
    requires h.own.Some? && h.own.value.retries > 0
  {
    Books.Redial(p, h.own.value.addr, h.own.value.retries - 1, h.keepAlive)
  }

  /** The deferred dials a failure adds: redials with a smaller budget, or fresh ones for a dial without an address. */
  ghost predicate Defers(cfg: Config, h: Handler, before: multiset<Dialling>, after: multiset<Dialling>) {
    if h.own.Some? then
      || after == before
      || (h.own.value.retries > 0 && exists p :: after == before + multiset{Again(h, p)})
    else
      || after == before
      || exists p: PeerId, errors: seq<(Multiaddr, bool)> :: after == before + multiset(Redials(cfg, p, errors))
  }

  lemma FailureAdds(cfg: Config, b: Book, h: Handler, peer: Option<PeerId>, err: DialFault, now: int)
    ensures var b' := FailDial(cfg, b, h, peer, err, now);
      b'.actions == b.actions && Defers(cfg, h, b.deferred, b'.deferred)
  {
    var who := Blamed(h, peer);
    if who.Some? && who.value in b.peers {
      if h.own.None? && err.Transport? {
        assert FailDial(cfg, b, h, peer, err, now).deferred
          == b.deferred + multiset(Redials(cfg, who.value, err.errors));
      } else if h.own.Some? && SimOpen(err) && h.own.value.retries > 0 {
        assert FailDial(cfg, b, h, peer, err, now).deferred == b.deferred + multiset{Again(h, who.value)};
      }
    }
  }

  lemma AnswerDecreases(s: Sys, s': Sys, d: Dialling)
    requires d in s.inflight && s'.inflight == s.inflight - multiset{d} && Queued(s') == Queued(s)
    ensures Below(s', s)
  {
    SumRemove(s.inflight, d, PlainTaken);
    SumRemove(s.inflight, d, ProbeTaken);
  }

  lemma RetryDecreases(s: Sys, s': Sys, d: Dialling, p: PeerId)
    requires d in s.inflight && s'.inflight == s.inflight - multiset{d}
    requires d.handler.own.Some? && d.handler.own.value.retries > 0
    requires Queued(s') == Queued(s) + multiset{Again(d.handler, p)}
    ensures Below(s', s)
  {
    SumRemove(s.inflight, d, PlainTaken);
    SumRemove(s.inflight, d, ProbeTaken);
    SumInsert(Queued(s), Again(d.handler, p), PlainQueued);
    SumInsert(Queued(s), Again(d.handler, p), ProbeQueued);
  }

  lemma SpreadDecreases(cfg: Config, s: Sys, s': Sys, d: Dialling, p: PeerId, errors: seq<(Multiaddr, bool)>)
    requires d in s.inflight && s'.inflight == s.inflight - multiset{d} && d.handler.own.None?
    requires Queued(s') == Queued(s) + multiset(Redials(cfg, p, errors))
    ensures Below(s', s)
  {
    SumRemove(s.inflight, d, PlainTaken);
    RedialsArePlainFree(cfg, Queued(s), p, errors);
  }

  lemma ProbeFailureDecreases(cfg: Config, s: Sys, s': Sys, d: Dialling)
    requires d in s.inflight && s'.inflight == s.inflight - multiset{d} && d.handler.own.Some?
    requires s'.book.actions == s.book.actions && Defers(cfg, d.handler, s.book.deferred, s'.book.deferred)
    requires s'.book.deferred != s.book.deferred
    ensures Below(s', s)
  {
    var p :| s'.book.deferred == s.book.deferred + multiset{Again(d.handler, p)};
    assert Queued(s') == Queued(s) + multiset{Again(d.handler, p)};
    RetryDecreases(s, s', d, p);
  }

  lemma PlainFailureDecreases(cfg: Config, s: Sys, s': Sys, d: Dialling)
    requires d in s.inflight && s'.inflight == s.inflight - multiset{d} && d.handler.own.None?
    requires s'.book.actions == s.book.actions && Defers(cfg, d.handler, s.book.deferred, s'.book.deferred)
    requires s'.book.deferred != s.book.deferred
    ensures Below(s', s)
  {
    var p: PeerId, errors: seq<(Multiaddr, bool)> :|
      s'.book.deferred == s.book.deferred + multiset(Redials(cfg, p, errors));
    assert Queued(s') == Queued(s) + multiset(Redials(cfg, p, errors));
    SpreadDecreases(cfg, s, s', d, p, errors);
  }

  lemma FailureDecreases(cfg: Config, s: Sys, s': Sys, d: Dialling)
    requires d in s.inflight && s'.inflight == s.inflight - multiset{d}
    requires s'.book.actions == s.book.actions && Defers(cfg, d.handler, s.book.deferred, s'.book.deferred)
    ensures Below(s', s)
  {
    if s'.book.deferred == s.book.deferred {
      AnswerDecreases(s, s', d);
    } else if d.handler.own.Some? {
      ProbeFailureDecreases(cfg, s, s', d);
    } else {
      PlainFailureDecreases(cfg, s, s', d);
    }
  }

  lemma TakeActionDecreases(cfg: Config, s: Sys, step: Step)
    requires Possible(cfg, s, step) && step.TakeAction?
    ensures Below(Apply(cfg, s, step), s)
  {
    var s', d := Apply(cfg, s, step), s.book.actions[0];
    assert s.book.actions == [d] + s.book.actions[1..];
    assert multiset(s.book.actions) == multiset(s'.book.actions) + multiset{d};
    TakingDecreases(s, s', d);
  }

  lemma TakeDeferredDecreases(cfg: Config, s: Sys, step: Step)
    requires Possible(cfg, s, step) && step.TakeDeferred?
    ensures Below(Apply(cfg, s, step), s)
  {
    var s' := Apply(cfg, s, step);
    assert s.book.deferred == s'.book.deferred + multiset{step.d};
    TakingDecreases(s, s', step.d);
  }

  lemma OpenDecreases(cfg: Config, s: Sys, step: Step)
    requires Possible(cfg, s, step) && step.Opened?
    ensures NotAbove(Apply(cfg, s, step), s)
    ensures step.dial.Some? ==> Below(Apply(cfg, s, step), s)
  {
    CalmQueues(cfg, s, step);
    if step.dial.Some? {
      SumRemove(s.inflight, step.dial.value, PlainTaken);
      SumRemove(s.inflight, step.dial.value, ProbeTaken);
    }
  }

  lemma FailedDecreases(cfg: Config, s: Sys, step: Step)
    requires Possible(cfg, s, step) && step.Failed?
    ensures Below(Apply(cfg, s, step), s)
  {
    FailureAdds(cfg, s.book, step.d.handler, step.peer, step.err, step.now);
    FailureDecreases(cfg, s, Apply(cfg, s, step), step.d);
  }

  lemma CalmNotAbove(cfg: Config, s: Sys, step: Step)
    requires Possible(cfg, s, step) && Calm(step) && !step.Opened?
    ensures NotAbove(Apply(cfg, s, step), s)
  {
    CalmQueues(cfg, s, step);
  }

  /** Left alone, the book never raises the measure, and every dial handed out or answered lowers it. */
  lemma StepDecreases(cfg: Config, s: Sys, step: Step)
    requires Possible(cfg, s, step) && Undisturbed(step)
    ensures NotAbove(Apply(cfg, s, step), s)
    ensures DialStep(step) ==> Below(Apply(cfg, s, step), s)
  {
    if step.Opened? {
      OpenDecreases(cfg, s, step);
    } else if DialStep(step) {
      DialDecreases(cfg, s, step);
      BelowIsNotAbove(Apply(cfg, s, step), s);
    } else {
      CalmNotAbove(cfg, s, step);
    }
  }

  lemma DialDecreases(cfg: Config, s: Sys, step: Step)
    requires Possible(cfg, s, step) && DialStep(step) && !step.Opened?
    ensures Below(Apply(cfg, s, step), s)
  {
    if step.TakeAction? {
      TakeActionDecreases(cfg, s, step);
    } else if step.TakeDeferred? {
      TakeDeferredDecreases(cfg, s, step);
    } else {
      FailedDecreases(cfg, s, step);
    }
  }

  lemma BelowIsNotAbove(s': Sys, s: Sys)
    requires Below(s', s)
    ensures NotAbove(s', s)
  {}

  // ---------- whole runs ----------

  /** An infinite run, in which disturbances have ceased from the m-th step on. */
  ghost predicate Run(cfg: Config, at: nat -> Sys, act: nat -> Step, m: nat) {
    && (forall i: nat {:trigger act(i)} :: Possible(cfg, at(i), act(i)) && at(i + 1) == Apply(cfg, at(i), act(i)))
    && (forall i: nat {:trigger act(i)} :: m <= i ==> Undisturbed(act(i)))
  }

  lemma RunStep(cfg: Config, at: nat -> Sys, act: nat -> Step, m: nat, i: nat)
    requires Run(cfg, at, act, m) && m <= i
    ensures NotAbove(at(i + 1), at(i))
    ensures DialStep(act(i)) ==> Below(at(i + 1), at(i))
  {
    var step := act(i);
    StepDecreases(cfg, at(i), step);
  }

  lemma NotAboveTransitive(u: Sys, t: Sys, s: Sys)
    requires NotAbove(u, t) && NotAbove(t, s)
    ensures NotAbove(u, s)
  {}

  lemma {:induction false} RunNotAbove(cfg: Config, at: nat -> Sys, act: nat -> Step, m: nat, i: nat, j: nat)
    requires Run(cfg, at, act, m) && m <= i <= j
    ensures NotAbove(at(j), at(i))
    decreases j - i
  {
    if i == j {
    } else {
      RunNotAbove(cfg, at, act, m, i + 1, j);
      RunStep(cfg, at, act, m, i);
      NotAboveTransitive(at(j), at(i + 1), at(i));
    }
  }

  lemma DialLeadsBelow(cfg: Config, at: nat -> Sys, act: nat -> Step, m: nat, i: nat, j: nat)
    requires Run(cfg, at, act, m) && m <= i <= j && DialStep(act(j))
    ensures Below(at(j + 1), at(i))
  {
    RunNotAbove(cfg, at, act, m, i, j);
    RunStep(cfg, at, act, m, j);
  }

  /** The lexicographic order. */
  predicate Smaller(p: nat, b: nat, p': nat, b': nat) {
    p < p' || (p == p' && b < b')
  }

  /** What lowers a measure that nothing raises happens only finitely often. */
  lemma {:induction false} Settles(plain: nat -> nat, budget: nat -> nat, dials: nat -> bool, k: nat) returns (n: nat)
    requires forall i: nat, j: nat :: k <= i <= j && dials(j) ==>
      Smaller(plain(j + 1), budget(j + 1), plain(i), budget(i))
    ensures k <= n && forall i: nat :: n <= i ==> !dials(i)
    decreases plain(k), budget(k)
  {
    if j: nat :| k <= j && dials(j) {
      assert Smaller(plain(j + 1), budget(j + 1), plain(k), budget(k));
      n := Settles(plain, budget, dials, j + 1);
    } else {
      n := k;
    }
  }

  /**
   Redialling terminates: in every infinite run in which commands, discoveries and failures of
   foreign dials cease, there is a point after which no dial is handed out, fails or succeeds,
   whatever else keeps happening.
   */
  lemma RedialTerminates(cfg: Config, at: nat -> Sys, act: nat -> Step, m: nat) returns (n: nat)
    requires Run(cfg, at, act, m)
    ensures m <= n && forall i: nat :: n <= i ==> !DialStep(act(i))
  {
    var plain, budget := (i: nat) => Plain(at(i)), (i: nat) => Budget(at(i));
    forall i: nat, j: nat | m <= i <= j && DialStep(act(j))
      ensures Smaller(plain(j + 1), budget(j + 1), plain(i), budget(i))
    {
      DialLeadsBelow(cfg, at, act, m, i, j);
    }
    var dials := (i: nat) => DialStep(act(i));
    n := Settles(plain, budget, dials, m);
    forall i: nat | n <= i ensures !DialStep(act(i)) {
      assert !dials(i);
    }
  }

  function CountDialSteps(steps: seq<Step>): nat {
    if steps == [] then 0 else (if DialStep(steps[0]) then 1 else 0) + CountDialSteps(steps[1..])
  }

  /** Once only validation dials are outstanding, their budget bounds the dialling of every run. */
  lemma {:induction false} BudgetBoundsDials(cfg: Config, s: Sys, steps: seq<Step>)
    requires Legal(cfg, s, steps) && Plain(s) == 0
    requires forall i :: 0 <= i < |steps| ==> Undisturbed(steps[i])
    ensures Plain(After(cfg, s, steps)) == 0
    ensures CountDialSteps(steps) + Budget(After(cfg, s, steps)) <= Budget(s)
    decreases |steps|
  {
    if steps == [] {
    } else {
      StepDecreases(cfg, s, steps[0]);
      BudgetBoundsDials(cfg, Apply(cfg, s, steps[0]), steps[1..]);
    }
  }

  // ---------- one chain of redials ----------

  /** Some failure of d defers r. */
  ghost predicate Causes(cfg: Config, d: Dialling, r: Dialling) {
    exists b: Book, peer: Option<PeerId>, err: DialFault, now: int ::
      FailDial(cfg, b, d.handler, peer, err, now).deferred[r] > b.deferred[r]
  }

  ghost predicate Chain(cfg: Config, c: seq<Dialling>) {
    forall i :: 0 <= i < |c| - 1 ==> Causes(cfg, c[i], c[i + 1])
  }

  /** Attempts left, this one included. */
  function Attempts(d: Dialling): nat {
    if d.handler.own.Some? then d.handler.own.value.retries + 1 else SIM_OPEN_RETRIES + 2
  }

  lemma CauseCosts(cfg: Config, d: Dialling, r: Dialling)
    requires Causes(cfg, d, r)
    ensures r.handler.own.Some? && Attempts(r) == Attempts(d) - 1
    ensures d.handler.own.Some? ==> r.handler.own.value.addr == d.handler.own.value.addr
  {
    var b: Book, peer: Option<PeerId>, err: DialFault, now: int :|
      FailDial(cfg, b, d.handler, peer, err, now).deferred[r] > b.deferred[r];
    FailureAdds(cfg, b, d.handler, peer, err, now);
    if d.handler.own.None? {
      var p: PeerId, errors: seq<(Multiaddr, bool)> :|
        FailDial(cfg, b, d.handler, peer, err, now).deferred == b.deferred + multiset(Redials(cfg, p, errors));
      RedialBudgets(cfg, p, errors);
      assert r in multiset(Redials(cfg, p, errors));
      assert r in Redials(cfg, p, errors);
    }
  }

  /** No dial with a lawful budget is the first of a chain of more than twelve attempts. */
  lemma {:induction false} TwelveAttempts(cfg: Config, c: seq<Dialling>)
    requires Chain(cfg, c) && c != [] && BudgetOk(c[0])
    ensures |c| <= Attempts(c[0]) <= 12
  {
    if |c| == 1 {
    } else {
      assert Causes(cfg, c[0], c[0 + 1]);
      CauseCosts(cfg, c[0], c[1]);
      forall i | 0 <= i < |c[1..]| - 1 ensures Causes(cfg, c[1..][i], c[1..][i + 1]) {
        assert Causes(cfg, c[i + 1], c[i + 1 + 1]);
      }
      TwelveAttempts(cfg, c[1..]);
    }
  }

  /** The attempts at one address that a dial command starts. */
  function AllAttempts(p: PeerId, a: Multiaddr, keepAlive: bool): seq<Dialling> {
    seq(12, i requires 0 <= i < 12 => Dialling(p, false, [a], Handler(Some(Probe(a, 11 - i)), keepAlive)))
  }

  /** The bound is attained: for every peer and address of its own there is a chain of twelve attempts. */
  lemma TwelveAttained(cfg: Config, p: PeerId, a: Multiaddr, keepAlive: bool)
    requires AddrPeer(a) == Some(p) || AddrPeer(a) == None
    ensures var c := AllAttempts(p, a, keepAlive); Chain(cfg, c) && |c| == 12 && BudgetOk(c[0])
  {
    var c := AllAttempts(p, a, keepAlive);
    forall i | 0 <= i < |c| - 1 ensures Causes(cfg, c[i], c[i + 1]) {
      RetryCaused(cfg, p, a, keepAlive, 11 - i);
    }
  }

  /** After a simultaneous open a dial with retries left causes the same dial with one less. */
  lemma RetryCaused(cfg: Config, p: PeerId, a: Multiaddr, keepAlive: bool, n: nat)
    requires n > 0 && (AddrPeer(a) == Some(p) || AddrPeer(a) == None)
    ensures Causes(cfg, Dialling(p, false, [a], Handler(Some(Probe(a, n)), keepAlive)),
                   Dialling(p, false, [a], Handler(Some(Probe(a, n - 1)), keepAlive)))
  {
    var d := Dialling(p, false, [a], Handler(Some(Probe(a, n)), keepAlive));
    var r := Dialling(p, false, [a], Handler(Some(Probe(a, n - 1)), keepAlive));
    var b := Book({}, map[p := DEFAULT_INFO], [], multiset{}, []);
    var err := Transport([(a, true)]);
    assert err.errors[0].1;
    assert SimOpen(err);
    assert FailDial(cfg, b, d.handler, Some(p), err, 0).deferred[r] > b.deferred[r];
  }
}
