/**
 Token-bucket shapers of the path emulator.

 src/moonem.cpp keeps the bucket lazily: a dropped packet leaves the state
 alone.  src/moonem_sw.cpp refills once per burst.  The first accepts a packet
 that is strictly smaller than the tokens present, the second also one that
 needs them all; `strict` tells the two apart.

 Token levels are reals.  Timestamps are natural numbers.
 */
module TokenBucket {
  import opened Reals
  import opened Sequences
  import opened Stages

  /** Tokens per clock tick, the bucket's size in bytes, the delay added to
      accepted packets and the kind of comparison. */
  datatype Bucket = Bucket(rate: real, capacity: real, delay: nat, strict: bool)

  /** Tokens left at the time of the last update. */
  datatype Tokens = Tokens(level: real, at: nat)

  const EMPTY := Tokens(0.0, 0)

  predicate Fits(strict: bool, need: real, have: real) {
    if strict then need < have else need <= have
  }

  /** Tokens earned between two times. */
  function Earned(b: Bucket, from: int, to: int): real { Amount(to - from, b.rate) }

  lemma EarnedSum(b: Bucket, t0: int, t1: int, t2: int)
    ensures Earned(b, t0, t2) == Earned(b, t0, t1) + Earned(b, t1, t2)
  {
    AmountSum(t1 - t0, t2 - t1, b.rate);
  }

  function Level(b: Bucket, s: Tokens, t: nat): real {
    Min(s.level + Earned(b, s.at, t), b.capacity)
  }

  predicate Accepts(b: Bucket, s: Tokens, p: Pkt) {
    Fits(b.strict, p.Size() as real, Level(b, s, p.stamp))
  }

  function Take(b: Bucket, s: Tokens, p: Pkt): Tokens {
    Tokens(Level(b, s, p.stamp) - p.Size() as real, p.stamp)
  }

  function Stamped(b: Bucket, p: Pkt): Pkt { p.(stamp := p.stamp + b.delay) }

  /** The lazy bucket: a drop leaves the state alone. */
  function Lazy(b: Bucket): (Tokens, Pkt) -> (Tokens, Option<Pkt>) {
    (s: Tokens, p: Pkt) =>
      if Accepts(b, s, p) then (Take(b, s, p), Some(Stamped(b, p))) else (s, None)
  }

  /** The textbook bucket: refilled at every arrival. */
  function Eager(b: Bucket): (Tokens, Pkt) -> (Tokens, Option<Pkt>) {
    (s: Tokens, p: Pkt) =>
      if Accepts(b, s, p) then (Take(b, s, p), Some(Stamped(b, p)))
      else (Tokens(Level(b, s, p.stamp), p.stamp), None)
  }

  // ---------------------------------------------------------------- conformance

  function Total(ps: seq<Pkt>): nat {
    if ps == [] then 0 else Total(ps[..|ps| - 1]) + ps[|ps| - 1].Size()
  }

  /** `x` more bytes at time `t` keep every window within its allowance: the one
      since the start, and each one that opens with an accepted packet. */
  predicate Admits(b: Bucket, accepted: seq<Pkt>, t: int, x: real) {
    && Fits(b.strict, Total(accepted) as real + x, Earned(b, 0, t))
    && forall j :: 0 <= j < |accepted| ==> AdmitsWindow(b, accepted[j..], t, x)
  }

  predicate AdmitsWindow(b: Bucket, window: seq<Pkt>, t: int, x: real)
    requires window != []
  {
    Fits(b.strict, Total(window) as real + x, b.capacity + Earned(b, window[0].stamp - b.delay, t))
  }

  /** The packet fits into the bucket and keeps every window within its allowance. */
  predicate Conforms(b: Bucket, accepted: seq<Pkt>, p: Pkt) {
    Fits(b.strict, p.Size() as real, b.capacity) && Admits(b, accepted, p.stamp, p.Size() as real)
  }

  /** The token level summarises all windows. */
  ghost predicate Summarises(b: Bucket, accepted: seq<Pkt>, s: Tokens) {
    forall x: real :: Fits(b.strict, x, s.level) <==> Admits(b, accepted, s.at, x)
  }

  /** Waiting earns tokens in every window alike. */
  lemma AdmitsLater(b: Bucket, accepted: seq<Pkt>, t: int, u: int, x: real)
    ensures Admits(b, accepted, t, x) <==> Admits(b, accepted, u, x + Earned(b, t, u))
  {
    EarnedSum(b, 0, t, u);
    forall j | 0 <= j < |accepted|
      ensures AdmitsWindow(b, accepted[j..], t, x) <==> AdmitsWindow(b, accepted[j..], u, x + Earned(b, t, u))
    {
      EarnedSum(b, accepted[j].stamp - b.delay, t, u);
    }
  }

  lemma TotalSnoc(ps: seq<Pkt>, q: Pkt)
    ensures Total(ps + [q]) == Total(ps) + q.Size()
  {
    assert (ps + [q])[..|ps|] == ps;
  }

  /** Accepting a packet adds it to every window and opens one more. */
  lemma AdmitsSnoc(b: Bucket, accepted: seq<Pkt>, p: Pkt, x: real)
    ensures Admits(b, accepted + [Stamped(b, p)], p.stamp, x)
            <==> Admits(b, accepted, p.stamp, x + p.Size() as real)
                 && Fits(b.strict, x + p.Size() as real, b.capacity)
  {
    var q := Stamped(b, p);
    var more := accepted + [q];
    TotalSnoc(accepted, q);
    forall j | 0 <= j < |accepted|
      ensures AdmitsWindow(b, more[j..], p.stamp, x) <==> AdmitsWindow(b, accepted[j..], p.stamp, x + p.Size() as real)
    {
      assert more[j..] == accepted[j..] + [q];
      TotalSnoc(accepted[j..], q);
    }
    assert more[|accepted|..] == [] + [q];
    TotalSnoc([], q);
    assert Earned(b, q.stamp - b.delay, p.stamp) == 0.0;
    assert AdmitsWindow(b, more[|accepted|..], p.stamp, x) <==> Fits(b.strict, x + p.Size() as real, b.capacity);
  }

  lemma AcceptsIffConforms(b: Bucket, accepted: seq<Pkt>, s: Tokens, p: Pkt)
    requires Summarises(b, accepted, s)
    ensures Accepts(b, s, p) <==> Conforms(b, accepted, p)
  {
    var x := p.Size() as real - Earned(b, s.at, p.stamp);
    assert Fits(b.strict, x, s.level) <==> Admits(b, accepted, s.at, x);
    AdmitsLater(b, accepted, s.at, p.stamp, x);
  }

  lemma TakeSummarises(b: Bucket, accepted: seq<Pkt>, s: Tokens, p: Pkt)
    requires Summarises(b, accepted, s)
    ensures Summarises(b, accepted + [Stamped(b, p)], Take(b, s, p))
  {
    forall x: real
      ensures Fits(b.strict, x, Take(b, s, p).level) <==> Admits(b, accepted + [Stamped(b, p)], p.stamp, x)
    {
      var y := x + p.Size() as real;
      var z := y - Earned(b, s.at, p.stamp);
      assert Fits(b.strict, z, s.level) <==> Admits(b, accepted, s.at, z);
      AdmitsLater(b, accepted, s.at, p.stamp, z);
      AdmitsSnoc(b, accepted, p, x);
    }
  }

  lemma {:induction false} RunSummarises(b: Bucket, ps: seq<Pkt>)
    ensures var t := Run(Lazy(b), EMPTY, ps); Summarises(b, t.kept, t.state)
  {
    if ps == [] {
      assert Earned(b, 0, 0) == 0.0;
    } else {
      var front := ps[..|ps| - 1];
      RunSummarises(b, front);
      var t := Run(Lazy(b), EMPTY, front);
      TakeSummarises(b, t.kept, t.state, ps[|ps| - 1]);
    }
  }

  /** Exact conformance: after any stream, the next packet is accepted if and
      only if every window it closes stays within its allowance. */
  lemma ExactConformance(b: Bucket, ps: seq<Pkt>, p: Pkt)
    ensures var t := Run(Lazy(b), EMPTY, ps);
            Accepts(b, t.state, p) <==> Conforms(b, t.kept, p)
  {
    RunSummarises(b, ps);
    var t := Run(Lazy(b), EMPTY, ps);
    AcceptsIffConforms(b, t.kept, t.state, p);
  }

  /** A stretch of accepted packets is within its allowance. */
  predicate WindowBounded(b: Bucket, window: seq<Pkt>)
    requires window != []
  {
    Fits(b.strict, Total(window) as real, b.capacity + Earned(b, window[0].stamp, window[|window| - 1].stamp))
  }

  predicate WindowsBounded(b: Bucket, accepted: seq<Pkt>) {
    forall i, j :: 0 <= i < j <= |accepted| ==> WindowBounded(b, accepted[i..j])
  }

  /** Whatever arrives, what leaves the bucket never exceeds its allowance. */
  lemma {:induction false} OutputBounded(b: Bucket, ps: seq<Pkt>)
    ensures WindowsBounded(b, Run(Lazy(b), EMPTY, ps).kept)
  {
    if ps != [] {
      var front := ps[..|ps| - 1];
      var p := ps[|ps| - 1];
      OutputBounded(b, front);
      ExactConformance(b, front, p);
      var t := Run(Lazy(b), EMPTY, front);
      if Accepts(b, t.state, p) {
        BoundedSnoc(b, t.kept, p);
      }
    }
  }

  lemma WindowCloses(b: Bucket, window: seq<Pkt>, p: Pkt)
    requires window != [] && AdmitsWindow(b, window, p.stamp, p.Size() as real)
    ensures WindowBounded(b, window + [Stamped(b, p)])
  {
    TotalSnoc(window, Stamped(b, p));
    assert Earned(b, window[0].stamp - b.delay, p.stamp) == Earned(b, window[0].stamp, p.stamp + b.delay);
  }

  lemma BoundedSnoc(b: Bucket, accepted: seq<Pkt>, p: Pkt)
    requires WindowsBounded(b, accepted) && Conforms(b, accepted, p)
    ensures WindowsBounded(b, accepted + [Stamped(b, p)])
  {
    var more := accepted + [Stamped(b, p)];
    forall i, j | 0 <= i < j <= |more| ensures WindowBounded(b, more[i..j]) {
      if j <= |accepted| {
        assert more[i..j] == accepted[i..j];
      } else if i < |accepted| {
        assert more[i..j] == accepted[i..] + [Stamped(b, p)];
        WindowCloses(b, accepted[i..], p);
      } else {
        assert more[i..j] == [] + [Stamped(b, p)];
        TotalSnoc([], Stamped(b, p));
        assert Earned(b, p.stamp + b.delay, p.stamp + b.delay) == 0.0;
      }
    }
  }

  // ---------------------------------------------------------------- lazy and eager

  predicate Sane(b: Bucket) { b.rate >= 0.0 && b.capacity >= 0.0 }

  lemma EarnedNonNegative(b: Bucket, t: int, u: int)
    requires b.rate >= 0.0 && t <= u
    ensures Earned(b, t, u) >= 0.0
  {
    AmountNonNegative(u - t, b.rate);
  }

  /** Refilling in two steps is refilling in one. */
  lemma RefillTwice(b: Bucket, s: Tokens, t: nat, u: nat)
    requires Sane(b) && t <= u
    ensures Level(b, Tokens(Level(b, s, t), t), u) == Level(b, s, u)
  {
    EarnedSum(b, s.at, t, u);
    EarnedNonNegative(b, t, u);
  }

  /** The eager level is what the lazy bucket would compute now. */
  predicate Caught(b: Bucket, lazy: Tokens, eager: Tokens) {
    eager.level == Level(b, lazy, eager.at)
  }

  /** For packets in order of arrival, both buckets decide alike. */
  lemma {:induction false} LazyIsEager(b: Bucket, ps: seq<Pkt>)
    requires Sane(b) && Sorted(ps)
    ensures var lazy := Run(Lazy(b), EMPTY, ps);
            var eager := Run(Eager(b), EMPTY, ps);
            && lazy.kept == eager.kept && lazy.dropped == eager.dropped
            && Caught(b, lazy.state, eager.state)
            && eager.state.at == if ps == [] then 0 else ps[|ps| - 1].stamp
  {
    if ps == [] {
      assert Earned(b, 0, 0) == 0.0;
    } else {
      var front := ps[..|ps| - 1];
      var p := ps[|ps| - 1];
      LazyIsEager(b, front);
      var lazy := Run(Lazy(b), EMPTY, front).state;
      var eager := Run(Eager(b), EMPTY, front).state;
      RefillTwice(b, lazy, eager.at, p.stamp);
      assert Earned(b, p.stamp, p.stamp) == 0.0;
      assert Level(b, Take(b, lazy, p), p.stamp) == Min(Take(b, lazy, p).level, b.capacity);
    }
  }

  /** The eager bucket conforms exactly, too. */
  lemma EagerConformance(b: Bucket, ps: seq<Pkt>, p: Pkt)
    requires Sane(b) && Sorted(ps + [p])
    ensures var t := Run(Eager(b), EMPTY, ps);
            Accepts(b, t.state, p) <==> Conforms(b, t.kept, p)
  {
    assert forall i :: 0 <= i < |ps| ==> (ps + [p])[i] == ps[i];
    assert (ps + [p])[|ps|] == p;
    LazyIsEager(b, ps);
    ExactConformance(b, ps, p);
    var lazy := Run(Lazy(b), EMPTY, ps).state;
    var eager := Run(Eager(b), EMPTY, ps).state;
    RefillTwice(b, lazy, eager.at, p.stamp);
  }

  // ---------------------------------------------------------------- bursts

  /** Within a burst tokens are only taken. */
  function InBurst(b: Bucket): (real, Pkt) -> (real, Option<Pkt>) {
    (level: real, p: Pkt) =>
      if Fits(b.strict, p.Size() as real, level) then (level - p.Size() as real, Some(Stamped(b, p)))
      else (level, None)
  }

  /** The software loop: refill once, then serve the burst, if there is one. */
  function ServeBurst(b: Bucket, s: Tokens, u: Burst): Trace<Tokens, Pkt, Pkt> {
    if u.pkts == [] then Trace(s, [], [])
    else
      var t := Run(InBurst(b), Level(b, s, u.time), Arrivals(u));
      Trace(Tokens(t.state, u.time), t.kept, t.dropped)
  }

  function ServeBursts(b: Bucket, s: Tokens, us: seq<Burst>): Trace<Tokens, Pkt, Pkt> {
    if us == [] then Trace(s, [], [])
    else
      var t := ServeBursts(b, s, us[..|us| - 1]);
      var v := ServeBurst(b, t.state, us[|us| - 1]);
      Trace(v.state, t.kept + v.kept, t.dropped + v.dropped)
  }

  /** Refilling at every packet of a burst is refilling once. */
  lemma {:induction false} BurstIsEager(b: Bucket, s: Tokens, time: nat, ps: seq<Pkt>)
    requires forall i :: 0 <= i < |ps| ==> ps[i].stamp == time
    ensures var once := Run(InBurst(b), Level(b, s, time), ps);
            var each := Run(Eager(b), s, ps);
            && once.kept == each.kept && once.dropped == each.dropped && once.state <= b.capacity
            && (ps != [] ==> each.state == Tokens(once.state, time))
  {
    if ps != [] {
      var front := ps[..|ps| - 1];
      BurstIsEager(b, s, time, front);
      assert Earned(b, time, time) == 0.0;
      var each := Run(Eager(b), s, front).state;
      var once := Run(InBurst(b), Level(b, s, time), front).state;
      assert front == [] ==> each == s && once == Level(b, s, time);
      assert Level(b, each, time) == once;
      assert ps[|ps| - 1].Size() >= 0;
    }
  }

  /** How same-time packets are grouped into bursts changes no decision and no
      state: every grouping serves the stream packet by packet. */
  lemma {:induction false} GroupingIrrelevant(b: Bucket, us: seq<Burst>)
    ensures ServeBursts(b, EMPTY, us) == Run(Eager(b), EMPTY, AllArrivals(us))
  {
    if us != [] {
      var front := us[..|us| - 1];
      var u := us[|us| - 1];
      GroupingIrrelevant(b, front);
      var t := ServeBursts(b, EMPTY, front);
      BurstIsEager(b, t.state, u.time, Arrivals(u));
      RunConcat(Eager(b), EMPTY, AllArrivals(front), Arrivals(u));
    }
  }
}
