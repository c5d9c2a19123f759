/**
 Round-trip-time statistics of a peer: integer exponential averages with floor division.
 Durations are whole nanoseconds; dividing a duration by ten floors in that unit.
 */
module Rtts {

  const U32: int := 0x1_0000_0000

  datatype Stats = Stats(current: nat, decay3: nat, decay10: nat, failures: nat, failureRate: nat)

  /** What one ping reports. */
  datatype Sample = Reply(rtt: nat) | Timeout

  function Fresh(current: nat): Stats {
    Stats(current, current, current, 0, 0)
  }

  function Registered(s: Stats, current: nat): Stats {
    Stats(current,
          s.decay3 * 7 / 10 + current * 3 / 10,
          s.decay10 * 9 / 10 + current / 10,
          0,
          s.failureRate * 99 / 100)
  }

  function RegisteredFailure(s: Stats): Stats {
    s.(failures := (s.failures + 1) % U32, failureRate := s.failureRate * 99 / 100 + 10_000)
  }

  function Sampled(s: Stats, x: Sample): Stats {
    match x
    case Reply(d) => Registered(s, d)
    case Timeout => RegisteredFailure(s)
  }

  /** The statistics after a first reply and a history of further pings. */
  function History(first: nat, xs: seq<Sample>): Stats {
    if xs == [] then Fresh(first) else Sampled(History(first, xs[..|xs| - 1]), xs[|xs| - 1])
  }

  /** The statistics of a peer, updated in place. */
  class Rtt {
    var current: nat
    var decay3: nat
    var decay10: nat
    var failures: nat
    var failureRate: nat

    function Value(): Stats
      reads this
    {
      Stats(current, decay3, decay10, failures, failureRate)
    }

    constructor (current: nat)
      ensures Value() == Fresh(current)
    {
      this.current, decay3, decay10, failures, failureRate := current, current, current, 0, 0;
    }

    constructor From(s: Stats)
      ensures Value() == s
    {
      current, decay3, decay10, failures, failureRate := s.current, s.decay3, s.decay10, s.failures, s.failureRate;
    }

    method Register(current: nat)
      modifies this
      ensures Value() == Registered(old(Value()), current)
    {
      this.current := current;
      decay3 := decay3 * 7 / 10 + current * 3 / 10;
      decay10 := decay10 * 9 / 10 + current / 10;
      failures := 0;
      failureRate := failureRate * 99 / 100;
    }

    method RegisterFailure()
      modifies this
      ensures Value() == RegisteredFailure(old(Value()))
    {
      failures := (failures + 1) % U32;
      failureRate := failureRate * 99 / 100 + 10_000;
    }
  }

  // ---------- failure rate ----------

  /** The value at which a run of failures settles: one percent below it rounds up to 10_000. */
  const MAX_RATE: nat := 999_901

  /**
   For every history the rate stays below the documented 1_000_000, in fact at or below
   999_901, so that no intermediate product leaves 32 bits.
   */
  lemma {:induction false} FailureRateBounded(first: nat, xs: seq<Sample>)
    ensures History(first, xs).failureRate <= MAX_RATE < 1_000_000
    ensures History(first, xs).failureRate * 99 + 10_000 < U32
  {
    if xs == [] {
    } else {
      FailureRateBounded(first, xs[..|xs| - 1]);
    }
  }

  /** n times the same sample. */
  function Repeat(x: Sample, n: nat): (xs: seq<Sample>)
    ensures |xs| == n && forall i :: 0 <= i < n ==> xs[i] == x
  {
    seq(n, i => x)
  }

  lemma HistoryAppend(first: nat, xs: seq<Sample>, x: Sample, n: nat)
    ensures History(first, xs + Repeat(x, n + 1)) == Sampled(History(first, xs + Repeat(x, n)), x)
    ensures xs + Repeat(x, 0) == xs
  {
    var ys := xs + Repeat(x, n + 1);
    assert ys[..|ys| - 1] == xs + Repeat(x, n);
  }

  /** After any history, each further failure raises the rate until it sits at the fixed point for good. */
  lemma {:induction false} FailuresRiseToLimit(first: nat, xs: seq<Sample>, n: nat)
    ensures var r := History(first, xs + Repeat(Timeout, n)).failureRate;
      && (r == MAX_RATE || r >= History(first, xs).failureRate + n)
      && (n >= MAX_RATE ==> r == MAX_RATE)
    ensures var r := History(first, xs + Repeat(Timeout, n)).failureRate;
      var next := History(first, xs + Repeat(Timeout, n + 1)).failureRate;
      if r == MAX_RATE then next == r else r < next
  {
    HistoryAppend(first, xs, Timeout, n);
    FailureRateBounded(first, xs + Repeat(Timeout, n));
    if n == 0 {
    } else {
      FailuresRiseToLimit(first, xs, n - 1);
    }
  }

  /** After any history, each further reply, whatever time it took, lowers the rate until it is zero. */
  lemma {:induction false} RepliesFallToZero(first: nat, xs: seq<Sample>, ys: seq<Sample>)
    requires forall y :: y in ys ==> y.Reply?
    ensures var r := History(first, xs + ys).failureRate;
      && (r == 0 || r + |ys| <= History(first, xs).failureRate)
      && (|ys| >= MAX_RATE ==> r == 0)
  {
    FailureRateBounded(first, xs);
    if ys == [] {
      assert xs + ys == xs;
    } else {
      var n := |ys| - 1;
      assert ys[n] in ys;
      assert (xs + ys)[..|xs| + n] == xs + ys[..n];
      RepliesFallToZero(first, xs, ys[..n]);
    }
  }

  /** Failures at the end of a history, that is since the last reply. */
  function TrailingFailures(xs: seq<Sample>): nat {
    if xs == [] || xs[|xs| - 1].Reply? then 0 else 1 + TrailingFailures(xs[..|xs| - 1])
  }

  lemma {:induction false} FailureCounter(first: nat, xs: seq<Sample>)
    ensures History(first, xs).failures == TrailingFailures(xs) % U32
  {
    if xs == [] {
    } else {
      FailureCounter(first, xs[..|xs| - 1]);
    }
  }

  // ---------- rounding drift of the averages ----------

  /** The largest fixed point of the rounded 30% average under constant samples m. */
  function Floor3(m: nat): (r: nat)
    ensures m - 3 <= r <= m
  {
    10 * (3 * m / 10) / 3
  }

  /** The largest fixed point of the rounded 10% average under constant samples m. */
  function Floor10(m: nat): (r: nat)
    ensures m - 9 <= r <= m
  {
    10 * (m / 10)
  }

  predicate Within(xs: seq<Sample>, lo: nat, hi: nat) {
    forall i :: 0 <= i < |xs| && xs[i].Reply? ==> lo <= xs[i].rtt <= hi
  }

  lemma Drift3Step(d: nat, c: nat, lo: nat, hi: nat)
    requires Floor3(lo) <= d <= hi && lo <= c <= hi
    ensures Floor3(lo) <= d * 7 / 10 + c * 3 / 10 <= hi
  {
    var q, f := 3 * lo / 10, Floor3(lo);
    assert 3 * f <= 10 * q;
    assert c * 3 / 10 >= q;
  }

  lemma Drift10Step(d: nat, c: nat, lo: nat, hi: nat)
    requires Floor10(lo) <= d <= hi && lo <= c <= hi
    ensures Floor10(lo) <= d * 9 / 10 + c / 10 <= hi
  {
    assert c / 10 >= lo / 10;
  }

  /**
   However long the history, the averages never leave the range of the samples by more than
   the rounding of a single step: three nanoseconds for the 30% average, nine for the 10% one.
   */
  lemma {:induction false} DriftBounded(first: nat, xs: seq<Sample>, lo: nat, hi: nat)
    requires lo <= first <= hi && Within(xs, lo, hi)
    ensures lo - 3 <= Floor3(lo) <= History(first, xs).decay3 <= hi
    ensures lo - 9 <= Floor10(lo) <= History(first, xs).decay10 <= hi
  {
    if xs == [] {
    } else {
      var n := |xs| - 1;
      DriftBounded(first, xs[..n], lo, hi);
      if xs[n].Reply? {
        Drift3Step(History(first, xs[..n]).decay3, xs[n].rtt, lo, hi);
        Drift10Step(History(first, xs[..n]).decay10, xs[n].rtt, lo, hi);
      }
    }
  }

  lemma Fall3(m: nat, d: nat)
    requires Floor3(m) <= d <= m
    ensures var d' := d * 7 / 10 + m * 3 / 10;
      if d == Floor3(m) then d' == d else Floor3(m) <= d' < d
  {
    var q := 3 * m / 10;
    assert 3 * Floor3(m) <= 10 * q < 3 * Floor3(m) + 3;
  }

  lemma Fall10(m: nat, d: nat)
    requires Floor10(m) <= d <= m
    ensures var d' := d * 9 / 10 + m / 10;
      if d == Floor10(m) then d' == d else Floor10(m) <= d' < d
  {}

  /** Within the bounds, and n steps down unless already at the bottom. */
  predicate Fallen(s: Stats, m: nat, n: nat) {
    && Floor3(m) <= s.decay3 <= m && (s.decay3 == Floor3(m) || s.decay3 <= m - n)
    && Floor10(m) <= s.decay10 <= m && (s.decay10 == Floor10(m) || s.decay10 <= m - n)
  }

  lemma FallStep(s: Stats, m: nat, n: nat)
    requires Fallen(s, m, n)
    ensures Fallen(Registered(s, m), m, n + 1)
  {
    Fall3(m, s.decay3);
    Fall10(m, s.decay10);
  }

  lemma {:induction false} Descend(m: nat, n: nat)
    ensures Fallen(History(m, Repeat(Reply(m), n)), m, n)
  {
    if n == 0 {
    } else {
      Descend(m, n - 1);
      HistoryAppend(m, [], Reply(m), n - 1);
      assert [] + Repeat(Reply(m), n) == Repeat(Reply(m), n);
      assert [] + Repeat(Reply(m), n - 1) == Repeat(Reply(m), n - 1);
      FallStep(History(m, Repeat(Reply(m), n - 1)), m, n - 1);
    }
  }

  /** The bounds are attained: ten equal replies bring both averages to exactly the lower bounds. */
  lemma DriftAttained(m: nat, n: nat)
    requires n >= 10
    ensures var s := History(m, Repeat(Reply(m), n)); s.decay3 == Floor3(m) && s.decay10 == Floor10(m)
  {
    Descend(m, n);
  }

  // ---------- what one ping does ----------

  /** The time of the latest reply in a history. */
  function LatestReply(first: nat, xs: seq<Sample>): nat {
    if xs == [] then first
    else if xs[|xs| - 1].Reply? then xs[|xs| - 1].rtt
    else LatestReply(first, xs[..|xs| - 1])
  }

  /** The current value is always that of the latest reply. */
  lemma {:induction false} CurrentIsLatest(first: nat, xs: seq<Sample>)
    ensures History(first, xs).current == LatestReply(first, xs)
  {
    if xs == [] {
    } else {
      CurrentIsLatest(first, xs[..|xs| - 1]);
    }
  }

  /**
   Up to two nanoseconds of rounding, a reply moves the averages by 30% and 10% of its distance;
   a failure moves neither.
   */
  lemma MovingAverages(first: nat, xs: seq<Sample>, x: Sample)
    ensures var s, s' := History(first, xs), History(first, xs + [x]);
      if x.Timeout? then s'.decay3 == s.decay3 && s'.decay10 == s.decay10
      else
        && 7 * s.decay3 + 3 * x.rtt - 20 < 10 * s'.decay3 <= 7 * s.decay3 + 3 * x.rtt
        && 9 * s.decay10 + x.rtt - 20 < 10 * s'.decay10 <= 9 * s.decay10 + x.rtt
  {
    assert (xs + [x])[..|xs|] == xs;
  }

  /** A ping takes 1% off the failure rate, up to rounding, and a failure adds 10_000 to what is left. */
  lemma RateDecays(first: nat, xs: seq<Sample>, x: Sample)
    ensures var r, r' := History(first, xs).failureRate, History(first, xs + [x]).failureRate;
      var left := if x.Timeout? then r' - 10_000 else r';
      99 * r - 100 < 100 * left <= 99 * r
  {
    assert (xs + [x])[..|xs|] == xs;
  }
}
