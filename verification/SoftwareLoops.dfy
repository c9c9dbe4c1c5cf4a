/**
 The receive loops of the path emulator that stamp in software
 (src/moonem_sw.cpp), and what they do together with the ring and its
 transmitter.

 Each receiver is a function from its state and a burst to what it adds to the
 ring, and a class whose methods compute that function in place.
 */
module SoftwareLoops {
  import opened Integers
  import opened Reals
  import opened Sequences
  import opened Stages
  import opened TokenBucket
  import opened LossModels
  import opened ShaperLoops
  import RateLaws
  import LB = LeakyBucket
  import Ring = DelayRing

  // ---------------------------------------------------------------- settings

  lemma DivideFirst(a: real, b: real, d: real)
    requires d > 0.0
    ensures a * (b / d) * d == a * b
  {
    assert b / d * d == b;
    assert a * (b / d) * d == a * (b / d * d);
  }

  lemma ProductAsReal(a: int, b: int)
    ensures (a * b) as real == a as real * b as real
  {
  }

  lemma ScaledBelow(x: real, d: nat, n: nat, below: nat)
    requires x * d as real == n as real && below as real <= x
    ensures below * d <= n
  {
    MulOrder(below as real, x, d as real);
    ProductAsReal(below, d);
  }

  lemma ScaledAbove(x: real, d: nat, n: nat, above: nat)
    requires d > 0 && x * d as real == n as real && x < above as real
    ensures n < above * d
  {
    MulStrict(x, above as real, d as real);
    ProductAsReal(above, d);
  }

  /** Clock cycles in a number of nanoseconds, rounded down. */
  function Cycles(tscHz: nat, ns: nat): (c: nat)
    ensures c * 1_000_000_000 <= tscHz * ns < (c + 1) * 1_000_000_000
  {
    var x := tscHz as real * (ns as real / 1000000000.0);
    DivideFirst(tscHz as real, ns as real, 1000000000.0);
    DivideNonNegative(ns as real, 1000000000.0);
    MulOrder(0.0, ns as real / 1000000000.0, tscHz as real);
    ProductAsReal(tscHz, ns);
    ScaledBelow(x, 1_000_000_000, tscHz * ns, x.Floor);
    ScaledAbove(x, 1_000_000_000, tscHz * ns, x.Floor + 1);
    x.Floor
  }

  /** The bucket of the software loop: time is cycles, and a packet may take all
      the tokens there are. */
  function SwBucketOf(c: Settings, tscHz: nat): Bucket
    requires tscHz > 0
  {
    Bucket(c.rate as real / 8.0 / tscHz as real * 1000000.0, c.capacity as real, Cycles(tscHz, c.delay), false)
  }

  lemma SwBucketSane(c: Settings, tscHz: nat)
    requires tscHz > 0
    ensures Sane(SwBucketOf(c, tscHz))
  {
    DivideNonNegative(c.rate as real / 8.0, tscHz as real);
  }

  /** The shaper of the software loop: bits per cycle. */
  function SwShaperOf(c: Settings, tscHz: nat): (s: LB.Shaper)
    requires c.rate > 0 && tscHz > 0
    ensures s.Valid()
  {
    LB.Shaper(c.rate as real * 1000000.0 / tscHz as real, c.capacity as real, Cycles(tscHz, c.delay))
  }

  /** A rate of `rate` Mbit/s is `1000000 * rate` bytes in `8 * tscHz` cycles. */
  function SwLaw(c: Settings, tscHz: nat): RateLaws.Law {
    RateLaws.Law(1000000 * c.rate, 8 * tscHz, c.capacity, Cycles(tscHz, c.delay))
  }

  lemma BytesPerCycle(rate: real, hz: real)
    requires hz > 0.0
    ensures 8.0 * hz * (rate / 8.0 / hz * 1000000.0) == 1000000.0 * rate
  {
    DivideMultiply(rate / 8.0, hz);
    assert 8.0 * hz * (rate / 8.0 / hz * 1000000.0) == 8000000.0 * (rate / 8.0 / hz * hz);
  }

  lemma SwBucketKeeps(c: Settings, tscHz: nat)
    requires tscHz > 0
    ensures RateLaws.Keeps(SwLaw(c, tscHz), SwBucketOf(c, tscHz))
  {
    TimesIsProduct(8 * tscHz, SwBucketOf(c, tscHz).rate);
    BytesPerCycle(c.rate as real, tscHz as real);
  }

  lemma BitsPerCycle(bits: real, hz: real)
    requires hz > 0.0
    ensures 8.0 * hz * (bits / hz / 8.0) == bits
  {
    DivideMultiply(bits, hz);
    assert 8.0 * hz * (bits / hz / 8.0) == bits / hz * hz;
  }

  lemma SwShaperKeeps(c: Settings, tscHz: nat)
    requires c.rate > 0 && tscHz > 0
    ensures RateLaws.Shapes(SwLaw(c, tscHz), SwShaperOf(c, tscHz))
  {
    TimesIsProduct(8 * tscHz, SwShaperOf(c, tscHz).Unit());
    BitsPerCycle(c.rate as real * 1000000.0, tscHz as real);
  }

  predicate SwAllows(c: Settings, tscHz: nat, bytes: int, cycles: int) {
    8 * tscHz * (bytes - c.capacity) <= 1000000 * c.rate * cycles
  }

  lemma SwWindow(c: Settings, tscHz: nat, bytes: int, cycles: int)
    ensures RateLaws.WindowAllows(SwLaw(c, tscHz), false, bytes, cycles) <==> SwAllows(c, tscHz, bytes, cycles)
  {
    MulIsProduct(SwLaw(c, tscHz).den, bytes - c.capacity);
    MulIsProduct(SwLaw(c, tscHz).num, cycles);
  }

  /** No window of a stream exceeds the rate by more than the capacity. */
  predicate SwWithinRate(c: Settings, tscHz: nat, ps: seq<Pkt>) {
    forall i, j :: 0 <= i < j <= |ps| ==>
      SwAllows(c, tscHz, RateLaws.Bytes(ps[i..j]), ps[j - 1].stamp - ps[i].stamp)
  }

  lemma SwPassedWindow(c: Settings, tscHz: nat, ps: seq<Pkt>, out: seq<Pkt>, i: nat, j: nat)
    requires tscHz > 0 && out == RateLaws.Passed(SwLaw(c, tscHz), false, ps) && i < j <= |out|
    ensures SwAllows(c, tscHz, RateLaws.Bytes(out[i..j]), out[j - 1].stamp - out[i].stamp)
  {
    SwBucketKeeps(c, tscHz);
    RateLaws.PassedBounded(SwLaw(c, tscHz), SwBucketOf(c, tscHz), ps, i, j);
    SwWindow(c, tscHz, RateLaws.Bytes(out[i..j]), out[j - 1].stamp - out[i].stamp);
  }

  lemma SwPassedWithinRate(c: Settings, tscHz: nat, ps: seq<Pkt>, out: seq<Pkt>)
    requires tscHz > 0 && out == RateLaws.Passed(SwLaw(c, tscHz), false, ps)
    ensures SwWithinRate(c, tscHz, out)
  {
    forall i, j | 0 <= i < j <= |out|
      ensures SwAllows(c, tscHz, RateLaws.Bytes(out[i..j]), out[j - 1].stamp - out[i].stamp)
    {
      SwPassedWindow(c, tscHz, ps, out, i, j);
    }
  }

  /** What the law of a path means in cycles, bytes and Mbit/s. */
  lemma SwFair(c: Settings, tscHz: nat, accepted: seq<Pkt>, p: Pkt)
    ensures RateLaws.Fair(SwLaw(c, tscHz), false, accepted, p) <==>
            && p.len + 24 <= c.capacity
            && 8 * tscHz * (RateLaws.Bytes(accepted) + p.len + 24) <= 1000000 * c.rate * p.stamp
            && forall j :: 0 <= j < |accepted| ==> SwMayFollow(c, tscHz, accepted[j..], p)
  {
    var l := SwLaw(c, tscHz);
    MulIsProduct(l.den, RateLaws.Bytes(accepted) + p.len + 24);
    MulIsProduct(l.num, p.stamp);
    forall j | 0 <= j < |accepted|
      ensures RateLaws.AllowsOneMore(l, false, accepted[j..], p) <==> SwMayFollow(c, tscHz, accepted[j..], p)
    {
      SwWindow(c, tscHz, RateLaws.Bytes(accepted[j..]) + p.len + 24, p.stamp - (accepted[j..][0].stamp - l.delay));
    }
  }

  predicate SwMayFollow(c: Settings, tscHz: nat, window: seq<Pkt>, p: Pkt)
    requires window != []
  {
    SwAllows(c, tscHz, RateLaws.Bytes(window) + p.len + 24, p.stamp - (window[0].stamp - Cycles(tscHz, c.delay)))
  }

  /** The loss model of the loops that test for loss themselves. */
  function Uniform(loss: Word): LossConfig { Config(UNIFORM, loss, [0, 0, 0, 0, 0, 0, 0, 0], Mix) }

  // ---------------------------------------------------------------- receivers

  /** Loss, and then one release time for what is left of the burst. */
  function DelayReceive(c: LossConfig, delay: nat): (LossState, Burst) -> (LossState, seq<Ring.Packet>) {
    (s: LossState, u: Burst) =>
      var thinned := Run(Loss(c), s, u.pkts);
      (thinned.state, Ring.Stamped(thinned.kept, u.time, delay))
  }

  /** Tokens, then loss, then one release time for what is left of the burst. */
  function TokenReceive(b: Bucket, mix: Word -> Word, loss: Word)
    : ((Tokens, Word), Burst) -> ((Tokens, Word), seq<Ring.Packet>)
  {
    (s: (Tokens, Word), u: Burst) =>
      var served := ServeBurst(b, s.0, u);
      var thinned := Run(InlineLoss(mix, loss), s.1, served.kept);
      ((served.state, thinned.state), Ring.Stamped(thinned.kept, u.time, b.delay))
  }

  /** The schedule, then loss; every packet has a release time of its own. */
  function LeakyReceive(c: LB.Shaper, mix: Word -> Word, loss: Word)
    : ((real, Word), Burst) -> ((real, Word), seq<Ring.Packet>)
    requires c.Valid()
  {
    (s: (real, Word), u: Burst) =>
      var shaped := Run(LB.Virtual(c), s.0, Arrivals(u));
      var thinned := Run(InlineLoss(mix, loss), s.1, shaped.kept);
      ((shaped.state, thinned.state), Ring.Singles(Packets(thinned.kept), u.time))
  }

  function DelayPath(c: LossConfig, seed: Word, delay: nat, capacity: nat): Ring.Emulator<LossState> {
    Ring.Emulator(DelayReceive(c, delay), LossState(seed, 0), delay, capacity)
  }

  function TokenPath(b: Bucket, mix: Word -> Word, loss: Word, seed: Word, capacity: nat)
    : Ring.Emulator<(Tokens, Word)>
  {
    Ring.Emulator(TokenReceive(b, mix, loss), (EMPTY, seed), b.delay, capacity)
  }

  function LeakyPath(c: LB.Shaper, mix: Word -> Word, loss: Word, seed: Word, capacity: nat)
    : Ring.Emulator<(real, Word)>
    requires c.Valid()
  {
    Ring.Emulator(LeakyReceive(c, mix, loss), (0.0, seed), c.delay, capacity)
  }

  // ---------------------------------------------------------------- the receivers are lawful

  lemma DelayLawful(c: LossConfig, seed: Word, delay: nat, capacity: nat)
    ensures Ring.Lawful(DelayPath(c, seed, delay, capacity))
  {
    forall s: LossState, u: Burst
      ensures var out := DelayReceive(c, delay)(s, u).1; Ring.WellFormed(out) && Ring.Delayed(out, delay)
    {
      Ring.StampedWellFormed(Run(Loss(c), s, u.pkts).kept, u.time, delay);
    }
  }

  lemma TokenLawful(b: Bucket, mix: Word -> Word, loss: Word, seed: Word, capacity: nat)
    ensures Ring.Lawful(TokenPath(b, mix, loss, seed, capacity))
  {
    forall s: (Tokens, Word), u: Burst
      ensures var out := TokenReceive(b, mix, loss)(s, u).1; Ring.WellFormed(out) && Ring.Delayed(out, b.delay)
    {
      Ring.StampedWellFormed(Run(InlineLoss(mix, loss), s.1, ServeBurst(b, s.0, u).kept).kept, u.time, b.delay);
    }
  }

  /** What survives the inline loss is what came in. */
  lemma InlineKeeps<P>(mix: Word -> Word, loss: Word, rng: Word, ps: seq<P>, good: P -> bool, kept: seq<P>)
    requires kept == Run(InlineLoss(mix, loss), rng, ps).kept
    requires forall i :: 0 <= i < |ps| ==> good(ps[i])
    ensures forall i :: 0 <= i < |kept| ==> good(kept[i])
  {
    KeptAll(InlineLoss(mix, loss), rng, ps, good);
  }

  function ReleasedFrom(t: nat): LB.Departure -> bool {
    (d: LB.Departure) => t <= d.pkt.stamp
  }

  /** The schedule releases nothing before the delay has passed. */
  lemma VirtualLate(c: LB.Shaper, nextAt: real, p: Pkt)
    requires c.Valid() && LB.Virtual(c)(nextAt, p).1.Some?
    ensures ReleasedFrom(p.stamp + c.delay)(LB.Virtual(c)(nextAt, p).1.value)
  {
    LB.VirtualApplied(c, nextAt, p);
  }

  lemma ShapedLate(c: LB.Shaper, nextAt: real, u: Burst, shaped: seq<LB.Departure>)
    requires c.Valid() && shaped == Run(LB.Virtual(c), nextAt, Arrivals(u)).kept
    ensures forall i :: 0 <= i < |shaped| ==> ReleasedFrom(u.time + c.delay)(shaped[i])
  {
    forall s: real, i | 0 <= i < |Arrivals(u)| && LB.Virtual(c)(s, Arrivals(u)[i]).1.Some?
      ensures ReleasedFrom(u.time + c.delay)(LB.Virtual(c)(s, Arrivals(u)[i]).1.value)
    {
      VirtualLate(c, s, Arrivals(u)[i]);
    }
    KeptAll(LB.Virtual(c), nextAt, Arrivals(u), ReleasedFrom(u.time + c.delay));
  }

  lemma SinglesLate(ds: seq<LB.Departure>, time: nat, delay: nat)
    requires forall i :: 0 <= i < |ds| ==> ReleasedFrom(time + delay)(ds[i])
    ensures Ring.WellFormed(Ring.Singles(Packets(ds), time)) && Ring.Delayed(Ring.Singles(Packets(ds), time), delay)
  {
    forall i | 0 <= i < |ds| ensures time + delay <= Packets(ds)[i].stamp {
      assert ReleasedFrom(time + delay)(ds[i]);
    }
    Ring.SinglesWellFormed(Packets(ds), time, delay);
  }

  lemma LeakyReceivesLate(c: LB.Shaper, mix: Word -> Word, loss: Word, s: (real, Word), u: Burst)
    requires c.Valid()
    ensures var out := LeakyReceive(c, mix, loss)(s, u).1; Ring.WellFormed(out) && Ring.Delayed(out, c.delay)
  {
    var shaped := Run(LB.Virtual(c), s.0, Arrivals(u)).kept;
    ShapedLate(c, s.0, u, shaped);
    var thinned := Run(InlineLoss(mix, loss), s.1, shaped).kept;
    InlineKeeps(mix, loss, s.1, shaped, ReleasedFrom(u.time + c.delay), thinned);
    SinglesLate(thinned, u.time, c.delay);
  }

  lemma LeakyLawful(c: LB.Shaper, mix: Word -> Word, loss: Word, seed: Word, capacity: nat)
    requires c.Valid()
    ensures Ring.Lawful(LeakyPath(c, mix, loss, seed, capacity))
  {
    forall s: (real, Word), u: Burst
      ensures var out := LeakyReceive(c, mix, loss)(s, u).1; Ring.WellFormed(out) && Ring.Delayed(out, c.delay)
    {
      LeakyReceivesLate(c, mix, loss, s, u);
    }
  }

  // ---------------------------------------------------------------- whole streams

  function Restamp(time: nat): Pkt -> Pkt { (p: Pkt) => p.(stamp := time) }

  lemma StampedDue(ps: seq<Pkt>, qs: seq<Pkt>, time: nat, delay: nat)
    requires |qs| == |ps| && forall i :: 0 <= i < |ps| ==> qs[i] == Restamp(time)(ps[i])
    ensures Ring.Buffers(Ring.Stamped(ps, time, delay)) == Due(qs, delay)
  {
    forall i | 0 <= i < |ps| ensures Ring.Buffers(Ring.Stamped(ps, time, delay))[i] == Due(qs, delay)[i] {
      assert qs[i] == Restamp(time)(ps[i]);
    }
  }

  lemma BuffersConcat(a: seq<Ring.Packet>, b: seq<Ring.Packet>)
    ensures Ring.Buffers(a + b) == Ring.Buffers(a) + Ring.Buffers(b)
  {
  }

  lemma DueConcat(a: seq<Pkt>, b: seq<Pkt>, delay: nat)
    ensures Due(a + b, delay) == Due(a, delay) + Due(b, delay)
  {
  }

  lemma PacketsConcat(a: seq<LB.Departure>, b: seq<LB.Departure>)
    ensures Packets(a + b) == Packets(a) + Packets(b)
  {
  }

  lemma DelayBurst(c: LossConfig, s: LossState, u: Burst, delay: nat)
    ensures var (t, out) := DelayReceive(c, delay)(s, u);
            var thinned := Run(Loss(c), s, Arrivals(u));
            t == thinned.state && Ring.Buffers(out) == Due(thinned.kept, delay)
  {
    LossNatural(c, s, u.pkts, Restamp(u.time), Arrivals(u));
    StampedDue(Run(Loss(c), s, u.pkts).kept, Run(Loss(c), s, Arrivals(u)).kept, u.time, delay);
  }

  /** Over any bursts the delay receiver passes on what the loss model leaves of
      the stream, each packet `delay` after its arrival. */
  lemma {:induction false} DelayStream(c: LossConfig, seed: Word, delay: nat, capacity: nat, us: seq<Burst>)
    ensures var r := Ring.Received(DelayPath(c, seed, delay, capacity), us);
            var thinned := Run(Loss(c), LossState(seed, 0), AllArrivals(us));
            r.0 == thinned.state && Ring.Buffers(r.1) == Due(thinned.kept, delay)
  {
    if us != [] {
      var front, u := us[..|us| - 1], us[|us| - 1];
      DelayStream(c, seed, delay, capacity, front);
      var before := Run(Loss(c), LossState(seed, 0), AllArrivals(front));
      DelayBurst(c, before.state, u, delay);
      RunConcat(Loss(c), LossState(seed, 0), AllArrivals(front), Arrivals(u));
      DueConcat(before.kept, Run(Loss(c), before.state, Arrivals(u)).kept, delay);
      BuffersConcat(Ring.Received(DelayPath(c, seed, delay, capacity), front).1,
                    DelayReceive(c, delay)(before.state, u).1);
    }
  }

  function StampIs(t: nat): Pkt -> bool { (p: Pkt) => p.stamp == t }

  /** The bucket has stamped what it keeps of a burst, so stamping it again for
      the ring changes nothing. */
  lemma ServedStamps(b: Bucket, s: Tokens, u: Burst, kept: seq<Pkt>)
    requires kept == ServeBurst(b, s, u).kept
    ensures forall i :: 0 <= i < |kept| ==> StampIs(u.time + b.delay)(kept[i])
  {
    if u.pkts != [] {
      KeptAll(InBurst(b), Level(b, s, u.time), Arrivals(u), StampIs(u.time + b.delay));
    }
  }

  lemma StampAgain(ps: seq<Pkt>, time: nat, delay: nat)
    requires forall i :: 0 <= i < |ps| ==> StampIs(time + delay)(ps[i])
    ensures Ring.Buffers(Ring.Stamped(ps, time, delay)) == ps
  {
    forall i | 0 <= i < |ps| ensures Ring.Buffers(Ring.Stamped(ps, time, delay))[i] == ps[i] {
      assert StampIs(time + delay)(ps[i]);
    }
  }

  lemma TokenBurst(b: Bucket, mix: Word -> Word, loss: Word, s: (Tokens, Word), u: Burst)
    ensures var (t, out) := TokenReceive(b, mix, loss)(s, u);
            var served := ServeBurst(b, s.0, u);
            var thinned := Run(InlineLoss(mix, loss), s.1, served.kept);
            t == (served.state, thinned.state) && Ring.Buffers(out) == thinned.kept
  {
    var served := ServeBurst(b, s.0, u).kept;
    var thinned := Run(InlineLoss(mix, loss), s.1, served).kept;
    ServedStamps(b, s.0, u, served);
    InlineKeeps(mix, loss, s.1, served, StampIs(u.time + b.delay), thinned);
    StampAgain(thinned, u.time, b.delay);
  }

  lemma {:induction false} TokenBursts(
      b: Bucket, mix: Word -> Word, loss: Word, seed: Word, capacity: nat, us: seq<Burst>)
    ensures var r := Ring.Received(TokenPath(b, mix, loss, seed, capacity), us);
            var served := ServeBursts(b, EMPTY, us);
            var thinned := Run(InlineLoss(mix, loss), seed, served.kept);
            r.0 == (served.state, thinned.state) && Ring.Buffers(r.1) == thinned.kept
  {
    if us != [] {
      var front, u := us[..|us| - 1], us[|us| - 1];
      TokenBursts(b, mix, loss, seed, capacity, front);
      var before := ServeBursts(b, EMPTY, front);
      var rng := Run(InlineLoss(mix, loss), seed, before.kept).state;
      TokenBurst(b, mix, loss, (before.state, rng), u);
      BuffersConcat(Ring.Received(TokenPath(b, mix, loss, seed, capacity), front).1,
                    TokenReceive(b, mix, loss)((before.state, rng), u).1);
      RunConcat(InlineLoss(mix, loss), seed, before.kept, ServeBurst(b, before.state, u).kept);
    }
  }

  /** Over any bursts the token-bucket receiver passes on what uniform loss leaves
      of what the textbook bucket leaves of the stream. */
  lemma TokenStream(b: Bucket, c: LossConfig, seed: Word, capacity: nat, us: seq<Burst>)
    requires c.lossType.UNIFORM?
    ensures var r := Ring.Received(TokenPath(b, c.mix, c.loss, seed, capacity), us);
            var policed := Run(Eager(b), EMPTY, AllArrivals(us));
            r.0.0 == policed.state && Ring.Buffers(r.1) == Run(Loss(c), LossState(seed, 0), policed.kept).kept
  {
    TokenBursts(b, c.mix, c.loss, seed, capacity, us);
    GroupingIrrelevant(b, us);
    InlineIsUniform(c, seed, 0, Run(Eager(b), EMPTY, AllArrivals(us)).kept);
  }

  lemma LeakyBurst(c: LB.Shaper, mix: Word -> Word, loss: Word, s: (real, Word), u: Burst)
    requires c.Valid()
    ensures var (t, out) := LeakyReceive(c, mix, loss)(s, u);
            var shaped := Run(LB.Virtual(c), s.0, Arrivals(u));
            var thinned := Run(InlineLoss(mix, loss), s.1, shaped.kept);
            t == (shaped.state, thinned.state) && Ring.Buffers(out) == Packets(thinned.kept)
  {
    var shaped := Run(LB.Virtual(c), s.0, Arrivals(u));
    SinglesBuffers(Packets(Run(InlineLoss(mix, loss), s.1, shaped.kept).kept), u.time);
  }

  lemma SinglesBuffers(ps: seq<Pkt>, time: nat)
    ensures Ring.Buffers(Ring.Singles(ps, time)) == ps
  {
  }

  lemma {:induction false} LeakyBursts(
      c: LB.Shaper, mix: Word -> Word, loss: Word, seed: Word, capacity: nat, us: seq<Burst>)
    requires c.Valid()
    ensures var r := Ring.Received(LeakyPath(c, mix, loss, seed, capacity), us);
            var shaped := Run(LB.Virtual(c), 0.0, AllArrivals(us));
            var thinned := Run(InlineLoss(mix, loss), seed, shaped.kept);
            r.0 == (shaped.state, thinned.state) && Ring.Buffers(r.1) == Packets(thinned.kept)
  {
    if us != [] {
      var front, u := us[..|us| - 1], us[|us| - 1];
      LeakyBursts(c, mix, loss, seed, capacity, front);
      var before := Run(LB.Virtual(c), 0.0, AllArrivals(front));
      var rng := Run(InlineLoss(mix, loss), seed, before.kept).state;
      LeakyBurst(c, mix, loss, (before.state, rng), u);
      var added := Run(LB.Virtual(c), before.state, Arrivals(u)).kept;
      RunConcat(LB.Virtual(c), 0.0, AllArrivals(front), Arrivals(u));
      RunConcat(InlineLoss(mix, loss), seed, before.kept, added);
      PacketsConcat(Run(InlineLoss(mix, loss), seed, before.kept).kept, Run(InlineLoss(mix, loss), rng, added).kept);
      BuffersConcat(Ring.Received(LeakyPath(c, mix, loss, seed, capacity), front).1,
                    LeakyReceive(c, mix, loss)((before.state, rng), u).1);
    }
  }

  /** Over any bursts the leaky-bucket receiver passes on what uniform loss leaves
      of what the schedule leaves of the stream. */
  lemma LeakyStream(c: LB.Shaper, l: LossConfig, seed: Word, capacity: nat, us: seq<Burst>)
    requires c.Valid() && l.lossType.UNIFORM?
    ensures var r := Ring.Received(LeakyPath(c, l.mix, l.loss, seed, capacity), us);
            var shaped := Run(LB.Virtual(c), 0.0, AllArrivals(us));
            && r.0.0 == shaped.state
            && Ring.Buffers(r.1) == Packets(Run(Loss(l), LossState(seed, 0), shaped.kept).kept)
  {
    LeakyBursts(c, l.mix, l.loss, seed, capacity, us);
    InlineIsUniform(l, seed, 0, Run(LB.Virtual(c), 0.0, AllArrivals(us)).kept);
  }

  // ---------------------------------------------------------------- the emulated paths

  /** The path with plain delay, in every run of receiver, ring and transmitter. */
  lemma DelayPathRuns(c: LossConfig, seed: Word, delay: nat, capacity: nat, steps: seq<Ring.Step>)
    ensures var e := DelayPath(c, seed, delay, capacity);
            var s := Ring.Run(e, Ring.Start(e), steps);
            && Ring.Safe(e, s)
            && Ring.Buffers(Ring.Received(e, s.arrivals).1)
               == Due(Run(Loss(c), LossState(seed, 0), AllArrivals(s.arrivals)).kept, delay)
  {
    var e := DelayPath(c, seed, delay, capacity);
    DelayLawful(c, seed, delay, capacity);
    Ring.RingSafety(e, steps);
    DelayStream(c, seed, delay, capacity, Ring.Run(e, Ring.Start(e), steps).arrivals);
  }

  /** What a token bucket passes on of a stream, before and after loss. */
  predicate Policed(b: Bucket, c: LossConfig, seed: Word, ps: seq<Pkt>, out: seq<Pkt>) {
    var policed := Run(Lazy(b), EMPTY, ps);
    && out == Run(Loss(c), LossState(seed, 0), policed.kept).kept
    && WindowsBounded(b, policed.kept)
  }

  lemma TokenStreamPoliced(b: Bucket, c: LossConfig, seed: Word, capacity: nat, us: seq<Burst>)
    requires Sane(b) && c.lossType.UNIFORM? && Sorted(AllArrivals(us))
    ensures Policed(b, c, seed, AllArrivals(us),
                    Ring.Buffers(Ring.Received(TokenPath(b, c.mix, c.loss, seed, capacity), us).1))
  {
    TokenStream(b, c, seed, capacity, us);
    LazyIsEager(b, AllArrivals(us));
    OutputBounded(b, AllArrivals(us));
  }

  /** The path with a token bucket, in every run: the clock puts packets in order,
      so the loop that refills once per burst polices exactly as the lazy bucket
      does packet by packet. */
  lemma TokenPathRuns(b: Bucket, c: LossConfig, seed: Word, capacity: nat, steps: seq<Ring.Step>)
    requires Sane(b) && c.lossType.UNIFORM?
    ensures var e := TokenPath(b, c.mix, c.loss, seed, capacity);
            var s := Ring.Run(e, Ring.Start(e), steps);
            && Ring.Safe(e, s)
            && Policed(b, c, seed, AllArrivals(s.arrivals), Ring.Buffers(Ring.Received(e, s.arrivals).1))
  {
    var e := TokenPath(b, c.mix, c.loss, seed, capacity);
    var s := Ring.Run(e, Ring.Start(e), steps);
    TokenLawful(b, c.mix, c.loss, seed, capacity);
    Ring.RingSafety(e, steps);
    OrderedArrivals(s.arrivals, s.clock);
    TokenStreamPoliced(b, c, seed, capacity, s.arrivals);
  }

  lemma TokenStreamConforms(
      b: Bucket, c: LossConfig, seed: Word, capacity: nat, us: seq<Burst>, now: nat, p: Pkt)
    requires Sane(b) && c.lossType.UNIFORM? && Ordered(us, now) && now <= p.stamp
    ensures Accepts(b, Ring.Received(TokenPath(b, c.mix, c.loss, seed, capacity), us).0.0, p)
            <==> Conforms(b, Run(Eager(b), EMPTY, AllArrivals(us)).kept, p)
  {
    OrderedArrivals(us, now);
    SortedSnoc(AllArrivals(us), p, now);
    TokenStream(b, c, seed, capacity, us);
    EagerConformance(b, AllArrivals(us), p);
  }

  /** And in every reachable state, the next packet is accepted if and only if it
      keeps every window of accepted packets within its allowance. */
  lemma TokenPathConforms(b: Bucket, c: LossConfig, seed: Word, capacity: nat, steps: seq<Ring.Step>, p: Pkt)
    requires Sane(b) && c.lossType.UNIFORM?
    requires var e := TokenPath(b, c.mix, c.loss, seed, capacity);
             Ring.Run(e, Ring.Start(e), steps).clock <= p.stamp
    ensures var e := TokenPath(b, c.mix, c.loss, seed, capacity);
            var s := Ring.Run(e, Ring.Start(e), steps);
            Accepts(b, s.rx.0, p) <==> Conforms(b, Run(Eager(b), EMPTY, AllArrivals(s.arrivals)).kept, p)
  {
    var e := TokenPath(b, c.mix, c.loss, seed, capacity);
    var s := Ring.Run(e, Ring.Start(e), steps);
    TokenLawful(b, c.mix, c.loss, seed, capacity);
    Ring.RunInv(e, steps);
    TokenStreamConforms(b, c, seed, capacity, s.arrivals, s.clock, p);
  }

  /** What the configured token bucket passes on of a stream: what uniform loss
      leaves of what the law of the path passes. */
  predicate SwPoliced(c: Settings, tscHz: nat, ps: seq<Pkt>, out: seq<Pkt>) {
    var passed := RateLaws.Passed(SwLaw(c, tscHz), false, ps);
    && out == Run(Loss(Uniform(c.loss)), LossState(c.seed, 0), passed).kept
    && SwWithinRate(c, tscHz, passed)
  }

  lemma PolicedIsSwPoliced(c: Settings, tscHz: nat, ps: seq<Pkt>, out: seq<Pkt>)
    requires tscHz > 0 && Policed(SwBucketOf(c, tscHz), Uniform(c.loss), c.seed, ps, out)
    ensures SwPoliced(c, tscHz, ps, out)
  {
    SwBucketKeeps(c, tscHz);
    RateLaws.BucketKeepsLaw(SwLaw(c, tscHz), SwBucketOf(c, tscHz), ps);
    SwPassedWithinRate(c, tscHz, ps, RateLaws.Passed(SwLaw(c, tscHz), false, ps));
  }

  /** The token path as it is configured: both hold of it without conditions. */
  lemma SwTokenPathRuns(c: Settings, tscHz: nat, ringSize: nat, steps: seq<Ring.Step>)
    requires tscHz > 0
    ensures var b := SwBucketOf(c, tscHz);
            var e := TokenPath(b, Mix, c.loss, c.seed, ringSize);
            var s := Ring.Run(e, Ring.Start(e), steps);
            && Ring.Safe(e, s)
            && SwPoliced(c, tscHz, AllArrivals(s.arrivals), Ring.Buffers(Ring.Received(e, s.arrivals).1))
  {
    SwBucketSane(c, tscHz);
    TokenPathRuns(SwBucketOf(c, tscHz), Uniform(c.loss), c.seed, ringSize, steps);
    var e := TokenPath(SwBucketOf(c, tscHz), Mix, c.loss, c.seed, ringSize);
    var s := Ring.Run(e, Ring.Start(e), steps);
    PolicedIsSwPoliced(c, tscHz, AllArrivals(s.arrivals), Ring.Buffers(Ring.Received(e, s.arrivals).1));
  }

  lemma SwTokenPathConforms(c: Settings, tscHz: nat, ringSize: nat, steps: seq<Ring.Step>, p: Pkt)
    requires tscHz > 0
    requires var e := TokenPath(SwBucketOf(c, tscHz), Mix, c.loss, c.seed, ringSize);
             Ring.Run(e, Ring.Start(e), steps).clock <= p.stamp
    ensures var b := SwBucketOf(c, tscHz);
            var e := TokenPath(b, Mix, c.loss, c.seed, ringSize);
            var s := Ring.Run(e, Ring.Start(e), steps);
            var l := SwLaw(c, tscHz);
            Accepts(b, s.rx.0, p)
            <==> RateLaws.Fair(l, false, RateLaws.Passed(l, false, AllArrivals(s.arrivals)), p)
  {
    var b := SwBucketOf(c, tscHz);
    var e := TokenPath(b, Mix, c.loss, c.seed, ringSize);
    SwBucketSane(c, tscHz);
    TokenPathConforms(b, Uniform(c.loss), c.seed, ringSize, steps, p);
    TokenLawful(b, Mix, c.loss, c.seed, ringSize);
    Ring.RunInv(e, steps);
    ConformsInLaw(c, tscHz, Ring.Run(e, Ring.Start(e), steps).arrivals, Ring.Run(e, Ring.Start(e), steps).clock, p);
  }

  lemma ConformsInLaw(c: Settings, tscHz: nat, us: seq<Burst>, now: nat, p: Pkt)
    requires tscHz > 0 && Ordered(us, now)
    ensures var b := SwBucketOf(c, tscHz);
            var l := SwLaw(c, tscHz);
            Conforms(b, Run(Eager(b), EMPTY, AllArrivals(us)).kept, p)
            <==> RateLaws.Fair(l, false, RateLaws.Passed(l, false, AllArrivals(us)), p)
  {
    var b, l := SwBucketOf(c, tscHz), SwLaw(c, tscHz);
    OrderedArrivals(us, now);
    SwBucketSane(c, tscHz);
    SwBucketKeeps(c, tscHz);
    LazyIsEager(b, AllArrivals(us));
    RateLaws.BucketKeepsLaw(l, b, AllArrivals(us));
    RateLaws.FairIsConforms(l, b, RateLaws.Passed(l, false, AllArrivals(us)), p);
  }

  /** The path with a leaky bucket, in every run: what is passed on is what loss
      leaves of the departures of a queue that drains at the target rate. */
  lemma LeakyPathRuns(c: LB.Shaper, l: LossConfig, seed: Word, capacity: nat, steps: seq<Ring.Step>)
    requires c.Valid() && l.lossType.UNIFORM?
    ensures var e := LeakyPath(c, l.mix, l.loss, seed, capacity);
            var s := Ring.Run(e, Ring.Start(e), steps);
            var shaped := Run(LB.Fluid(c), LB.Queue(0.0, 0), AllArrivals(s.arrivals));
            && Ring.Safe(e, s)
            && Ring.Buffers(Ring.Received(e, s.arrivals).1)
               == Packets(Run(Loss(l), LossState(seed, 0), shaped.kept).kept)
  {
    var e := LeakyPath(c, l.mix, l.loss, seed, capacity);
    var s := Ring.Run(e, Ring.Start(e), steps);
    LeakyLawful(c, l.mix, l.loss, seed, capacity);
    Ring.RingSafety(e, steps);
    OrderedArrivals(s.arrivals, s.clock);
    LeakyStream(c, l, seed, capacity, s.arrivals);
    LB.VirtualIsFluid(c, AllArrivals(s.arrivals));
  }

  /** The leaky path as it is configured, in every run: what is passed on is what
      loss leaves of the timetable of its law. */
  lemma SwLeakyPathRuns(c: Settings, tscHz: nat, ringSize: nat, steps: seq<Ring.Step>)
    requires c.rate > 0 && tscHz > 0
    ensures var e := LeakyPath(SwShaperOf(c, tscHz), Mix, c.loss, c.seed, ringSize);
            var s := Ring.Run(e, Ring.Start(e), steps);
            && Ring.Safe(e, s)
            && SwShaped(c, tscHz, AllArrivals(s.arrivals), Ring.Buffers(Ring.Received(e, s.arrivals).1))
  {
    var e := LeakyPath(SwShaperOf(c, tscHz), Mix, c.loss, c.seed, ringSize);
    LeakyPathRuns(SwShaperOf(c, tscHz), Uniform(c.loss), c.seed, ringSize, steps);
    SwLeakyStream(c, tscHz, ringSize, Ring.Run(e, Ring.Start(e), steps).arrivals);
  }

  /** What the configured leaky bucket passes on of a stream. */
  predicate SwShaped(c: Settings, tscHz: nat, ps: seq<Pkt>, out: seq<Pkt>)
    requires c.rate > 0
  {
    out == Run(Loss(Uniform(c.loss)), LossState(c.seed, 0), RateLaws.Scheduled(SwLaw(c, tscHz), ps).kept).kept
  }

  lemma SwLeakyStream(c: Settings, tscHz: nat, ringSize: nat, us: seq<Burst>)
    requires c.rate > 0 && tscHz > 0
    ensures var e := LeakyPath(SwShaperOf(c, tscHz), Mix, c.loss, c.seed, ringSize);
            SwShaped(c, tscHz, AllArrivals(us), Ring.Buffers(Ring.Received(e, us).1))
  {
    LeakyStream(SwShaperOf(c, tscHz), Uniform(c.loss), c.seed, ringSize, us);
    SwShaperKeeps(c, tscHz);
    LossOnTimetable(SwLaw(c, tscHz), SwShaperOf(c, tscHz), Uniform(c.loss), c.seed, AllArrivals(us));
  }

  // ---------------------------------------------------------------- the code

  lemma DelayApplied(c: LossConfig, delay: nat, s: LossState, u: Burst)
    ensures var thinned := Run(Loss(c), s, u.pkts);
            DelayReceive(c, delay)(s, u) == (thinned.state, Ring.Stamped(thinned.kept, u.time, delay))
    ensures u.pkts == [] ==> DelayReceive(c, delay)(s, u) == (s, [])
  {
  }

  lemma TokenApplied(b: Bucket, mix: Word -> Word, loss: Word, s: (Tokens, Word), u: Burst)
    ensures var served := ServeBurst(b, s.0, u);
            var thinned := Run(InlineLoss(mix, loss), s.1, served.kept);
            TokenReceive(b, mix, loss)(s, u)
            == ((served.state, thinned.state), Ring.Stamped(thinned.kept, u.time, b.delay))
    ensures u.pkts == [] ==> TokenReceive(b, mix, loss)(s, u) == (s, [])
  {
  }

  lemma LeakyApplied(c: LB.Shaper, mix: Word -> Word, loss: Word, s: (real, Word), u: Burst)
    requires c.Valid()
    ensures var shaped := Run(LB.Virtual(c), s.0, Arrivals(u));
            var thinned := Run(InlineLoss(mix, loss), s.1, shaped.kept);
            LeakyReceive(c, mix, loss)(s, u)
            == ((shaped.state, thinned.state), Ring.Singles(Packets(thinned.kept), u.time))
  {
  }

  /** Stamps what is left of a burst and makes it one burst for the transmitter. */
  method StampOut(accepted: seq<Pkt>, time: nat, delay: nat) returns (out: seq<Ring.Packet>)
    ensures out == Ring.Stamped(accepted, time, delay)
  {
    var bufs := new Ring.Packet[|accepted|](i requires 0 <= i < |accepted| => Ring.Packet(accepted[i], 0, 0));
    Ring.StampBurst(bufs, |accepted|, time, delay);
    out := bufs[..];
  }

  /** Makes every packet a burst of its own. */
  method SingleOut(accepted: seq<Pkt>, time: nat) returns (out: seq<Ring.Packet>)
    ensures out == Ring.Singles(accepted, time)
  {
    out := [];
    for i := 0 to |accepted|
      invariant out == Ring.Singles(accepted, time)[..i]
    {
      out := out + [Ring.Packet(accepted[i], time, 1)];
    }
  }

  predicate FitBursts(us: seq<Burst>) {
    forall i :: 0 <= i < |us| ==> |us[i].pkts| <= 64
  }

  /** sw_receiver_loop_delay. */
  class SwDelayReceiver {
    const delay: nat
    const loss: LossDevice

    constructor (c: Settings, tscHz: nat, loss: LossDevice)
      ensures delay == Cycles(tscHz, c.delay) && this.loss == loss
    {
      delay := Cycles(tscHz, c.delay);
      this.loss := loss;
    }

    method Receive(burst: Burst) returns (out: seq<Ring.Packet>)
      requires |burst.pkts| <= BURST_SIZE && Known(loss.config, loss.State())
      modifies loss
      ensures Known(loss.config, loss.State())
      ensures (loss.State(), out) == DelayReceive(loss.config, delay)(old(loss.State()), burst)
    {
      DelayApplied(loss.config, delay, loss.State(), burst);
      out := [];
      if |burst.pkts| > 0 {
        var accepted := Thin(loss, burst.pkts);
        out := StampOut(accepted, burst.time, delay);
      }
    }
  }

  /** The loop over any bursts, and what it adds to the ring. */
  method SwReceiverLoopDelay(c: Settings, tscHz: nat, ringSize: nat, bursts: seq<Burst>)
    returns (out: seq<Ring.Packet>)
    requires c.Valid() && FitBursts(bursts)
    ensures out == Ring.Received(DelayPath(c.Losses(), c.seed, Cycles(tscHz, c.delay), ringSize), bursts).1
    ensures var thinned := Run(Loss(c.Losses()), LossState(c.seed, 0), AllArrivals(bursts));
            Ring.Buffers(out) == Due(thinned.kept, Cycles(tscHz, c.delay))
  {
    var loss := new LossDevice(c.lossType, c.loss, c.params, c.seed);
    var receiver := new SwDelayReceiver(c, tscHz, loss);
    ghost var path := DelayPath(c.Losses(), c.seed, Cycles(tscHz, c.delay), ringSize);
    out := [];
    for i := 0 to |bursts|
      invariant fresh(loss) && loss.config == c.Losses() && Known(loss.config, loss.State())
      invariant (loss.State(), out) == Ring.Received(path, bursts[..i])
    {
      assert bursts[..i + 1][..i] == bursts[..i];
      var added := receiver.Receive(bursts[i]);
      out := out + added;
    }
    assert bursts[..|bursts|] == bursts;
    DelayStream(c.Losses(), c.seed, Cycles(tscHz, c.delay), ringSize, bursts);
  }

  /** sw_receiver_loop_rate_token_bucket, with the loss test inside the loop. */
  class SwTokenBucketReceiver {
    const bucket: Bucket
    const loss: Word
    const mix: Word -> Word
    var previousTimestamp: nat
    var previousTokens: real
    var rng: Word

    constructor (c: Settings, tscHz: nat)
      requires tscHz > 0
      ensures bucket == SwBucketOf(c, tscHz) && loss == c.loss && mix == Mix
      ensures State() == EMPTY && rng == c.seed
      ensures RateLaws.Keeps(SwLaw(c, tscHz), bucket) && !bucket.strict
    {
      SwBucketKeeps(c, tscHz);
      bucket := SwBucketOf(c, tscHz);
      loss := c.loss;
      mix := Mix;
      previousTimestamp, previousTokens := 0, 0.0;
      rng := c.seed;
    }

    function State(): Tokens
      reads this
    {
      Tokens(previousTokens, previousTimestamp)
    }

    /** One pass decides both on tokens and on loss; it does what serving the
        burst and then applying loss to what is left would do. */
    method Receive(burst: Burst) returns (out: seq<Ring.Packet>)
      requires !bucket.strict
      modifies this
      ensures ((State(), rng), out) == TokenReceive(bucket, mix, loss)((old(State()), old(rng)), burst)
    {
      TokenApplied(bucket, mix, loss, (State(), rng), burst);
      out := [];
      if |burst.pkts| > 0 {
        var level := Refill(bucket, State(), burst.time);
        var currentTokens, accepted := Serve(burst, level);
        previousTimestamp := burst.time;
        previousTokens := currentTokens;
        out := StampOut(accepted, burst.time, bucket.delay);
      }
    }

    /** The loop over the packets of a burst. */
    method Serve(burst: Burst, level: real) returns (currentTokens: real, out: seq<Pkt>)
      requires !bucket.strict
      modifies this`rng
      ensures var served := Run(InBurst(bucket), level, Arrivals(burst));
              var thinned := Run(InlineLoss(mix, loss), old(rng), served.kept);
              currentTokens == served.state && rng == thinned.state && out == thinned.kept
    {
      currentTokens, out := level, [];
      ghost var freed: seq<Pkt> := [];
      ghost var ps := Arrivals(burst);
      ghost var step := Fuse(InBurst(bucket), InlineLoss<Pkt>(mix, loss));
      for i := 0 to |burst.pkts|
        invariant Run(step, (level, old(rng)), ps[..i]) == Trace((currentTokens, rng), out, freed)
      {
        assert ps[..i + 1][..i] == ps[..i];
        var kept;
        currentTokens, kept := Admit(currentTokens, burst.pkts[i], burst.time);
        match kept {
          case Some(q) => out := out + [q];
          case None => freed := freed + [ps[i]];
        }
      }
      assert ps[..|ps|] == ps;
      FusedIsStaged(InBurst(bucket), InlineLoss<Pkt>(mix, loss), level, old(rng), ps);
    }

    /** The body of the loop: tokens first, then loss. */
    method Admit(tokens: real, pkt: Pkt, time: nat) returns (currentTokens: real, out: Option<Pkt>)
      requires !bucket.strict
      modifies this`rng
      ensures ((currentTokens, rng), out)
              == Fuse(InBurst(bucket), InlineLoss<Pkt>(mix, loss))((tokens, old(rng)), pkt.(stamp := time))
    {
      var effectivePacketSize := pkt.len + 24;
      if tokens < effectivePacketSize as real {
        return tokens, None;
      }
      currentTokens := tokens - effectivePacketSize as real;
      if loss > 0 {
        rng := Next(rng);
        if mix(rng) < loss {
          return currentTokens, None;
        }
      }
      out := Some(pkt.(stamp := time + bucket.delay));
    }
  }

  /** The loop over any bursts, and what it adds to the ring. */
  method SwReceiverLoopTokenBucket(c: Settings, tscHz: nat, ringSize: nat, bursts: seq<Burst>)
    returns (out: seq<Ring.Packet>)
    requires tscHz > 0
    ensures out == Ring.Received(TokenPath(SwBucketOf(c, tscHz), Mix, c.loss, c.seed, ringSize), bursts).1
    ensures var policed := Run(Eager(SwBucketOf(c, tscHz)), EMPTY, AllArrivals(bursts));
            Ring.Buffers(out) == Run(Loss(Uniform(c.loss)), LossState(c.seed, 0), policed.kept).kept
    ensures Sorted(AllArrivals(bursts)) ==> SwPoliced(c, tscHz, AllArrivals(bursts), Ring.Buffers(out))
  {
    var receiver := new SwTokenBucketReceiver(c, tscHz);
    ghost var path := TokenPath(receiver.bucket, receiver.mix, receiver.loss, c.seed, ringSize);
    out := [];
    for i := 0 to |bursts|
      invariant fresh(receiver)
      invariant ((receiver.State(), receiver.rng), out) == Ring.Received(path, bursts[..i])
    {
      assert bursts[..i + 1][..i] == bursts[..i];
      var added := receiver.Receive(bursts[i]);
      out := out + added;
    }
    assert bursts[..|bursts|] == bursts;
    TokenStream(SwBucketOf(c, tscHz), Uniform(c.loss), c.seed, ringSize, bursts);
    SwBucketSane(c, tscHz);
    if Sorted(AllArrivals(bursts)) {
      TokenStreamPoliced(SwBucketOf(c, tscHz), Uniform(c.loss), c.seed, ringSize, bursts);
      PolicedIsSwPoliced(c, tscHz, AllArrivals(bursts), Ring.Buffers(out));
    }
  }

  /** sw_receiver_loop_rate_leaky_bucket, with the loss test inside the loop. */
  class SwLeakyBucketReceiver {
    const shaper: LB.Shaper
    const loss: Word
    const mix: Word -> Word
    var nextAt: real
    var rng: Word

    constructor (c: Settings, tscHz: nat)
      requires c.rate > 0 && tscHz > 0
      ensures shaper == SwShaperOf(c, tscHz) && loss == c.loss && mix == Mix
      ensures nextAt == 0.0 && rng == c.seed
      ensures RateLaws.Shapes(SwLaw(c, tscHz), shaper)
    {
      SwShaperKeeps(c, tscHz);
      shaper := SwShaperOf(c, tscHz);
      loss := c.loss;
      mix := Mix;
      nextAt := 0.0;
      rng := c.seed;
    }

    /** One pass equals shaping followed by loss. */
    method Receive(burst: Burst) returns (out: seq<Ring.Packet>)
      requires shaper.Valid()
      modifies this
      ensures ((nextAt, rng), out) == LeakyReceive(shaper, mix, loss)((old(nextAt), old(rng)), burst)
    {
      LeakyApplied(shaper, mix, loss, (nextAt, rng), burst);
      var kept := Schedule(burst);
      out := SingleOut(Packets(kept), burst.time);
    }

    /** The loop over the packets of a burst. */
    method Schedule(burst: Burst) returns (kept: seq<LB.Departure>)
      requires shaper.Valid()
      modifies this
      ensures var shaped := Run(LB.Virtual(shaper), old(nextAt), Arrivals(burst));
              var thinned := Run(InlineLoss<LB.Departure>(mix, loss), old(rng), shaped.kept);
              nextAt == shaped.state && rng == thinned.state && kept == thinned.kept
    {
      kept := [];
      ghost var freed: seq<Pkt> := [];
      ghost var ps := Arrivals(burst);
      ghost var step := Fuse(LB.Virtual(shaper), InlineLoss<LB.Departure>(mix, loss));
      for i := 0 to |burst.pkts|
        invariant Run(step, (old(nextAt), old(rng)), ps[..i]) == Trace((nextAt, rng), kept, freed)
      {
        assert ps[..i + 1][..i] == ps[..i];
        var d := Admit(burst.pkts[i], burst.time);
        match d {
          case Some(q) => kept := kept + [q];
          case None => freed := freed + [ps[i]];
        }
      }
      assert ps[..|ps|] == ps;
      FusedIsStaged(LB.Virtual(shaper), InlineLoss<LB.Departure>(mix, loss), old(nextAt), old(rng), ps);
    }

    /** The body of the loop: the schedule first, then loss. */
    method Admit(pkt: Pkt, time: nat) returns (out: Option<LB.Departure>)
      requires shaper.Valid()
      modifies this
      ensures ((nextAt, rng), out)
              == Fuse(LB.Virtual(shaper), InlineLoss<LB.Departure>(mix, loss))(
                   (old(nextAt), old(rng)), pkt.(stamp := time))
    {
      ghost var arrival := pkt.(stamp := time);
      LB.VirtualApplied(shaper, nextAt, arrival);
      FuseApplied(LB.Virtual(shaper), InlineLoss<LB.Departure>(mix, loss), nextAt, rng, arrival);
      var sendTime := time + shaper.delay;
      var realSendTime := Max(sendTime as real, nextAt);
      var backlog := realSendTime - sendTime as real;
      if backlog > shaper.Bound() {
        return None;
      }
      nextAt := realSendTime + shaper.Serial(pkt);
      if loss > 0 {
        rng := Next(rng);
        if mix(rng) < loss {
          return None;
        }
      }
      out := Some(LB.Departure(pkt.(stamp := realSendTime.Floor), sendTime, realSendTime));
    }
  }

  /** The loop over any bursts, and what it adds to the ring. */
  method SwReceiverLoopLeakyBucket(c: Settings, tscHz: nat, ringSize: nat, bursts: seq<Burst>)
    returns (out: seq<Ring.Packet>)
    requires c.rate > 0 && tscHz > 0
    ensures out == Ring.Received(LeakyPath(SwShaperOf(c, tscHz), Mix, c.loss, c.seed, ringSize), bursts).1
    ensures var shaped := Run(LB.Virtual(SwShaperOf(c, tscHz)), 0.0, AllArrivals(bursts));
            Ring.Buffers(out) == Packets(Run(Loss(Uniform(c.loss)), LossState(c.seed, 0), shaped.kept).kept)
    ensures SwShaped(c, tscHz, AllArrivals(bursts), Ring.Buffers(out))
    ensures Paces(SwShaperOf(c, tscHz), AllArrivals(bursts))
  {
    var receiver := new SwLeakyBucketReceiver(c, tscHz);
    ghost var path := LeakyPath(receiver.shaper, receiver.mix, receiver.loss, c.seed, ringSize);
    out := [];
    for i := 0 to |bursts|
      invariant fresh(receiver)
      invariant ((receiver.nextAt, receiver.rng), out) == Ring.Received(path, bursts[..i])
    {
      assert bursts[..i + 1][..i] == bursts[..i];
      var added := receiver.Receive(bursts[i]);
      out := out + added;
    }
    assert bursts[..|bursts|] == bursts;
    LeakyStream(SwShaperOf(c, tscHz), Uniform(c.loss), c.seed, ringSize, bursts);
    SwLeakyStream(c, tscHz, ringSize, bursts);
    LeakyLoopPaces(SwShaperOf(c, tscHz), AllArrivals(bursts));
  }

  /** Loss inside a shaper's loop against the loss stage behind the same shaper,
      for any shaper and stream: the same packets are kept and the shaper ends
      alike.  The generator ends alike exactly if loss is configured, or if the
      shaper kept a whole number of generator periods, such as nothing. */
  lemma InlineLossIsStaged<S, Q>(f: (S, Pkt) -> (S, Option<Q>), c: LossConfig, s: S, seed: Word, ps: seq<Pkt>)
    requires c.lossType.UNIFORM?
    ensures var inline := Run(Fuse(f, InlineLoss(c.mix, c.loss)), (s, seed), ps);
            var shaped := Run(f, s, ps);
            var thinned := Run(Loss(c), LossState(seed, 0), shaped.kept);
            && inline.kept == thinned.kept
            && inline.state.0 == shaped.state
            && (inline.state.1 == thinned.state.rng <==> c.loss > 0 || |shaped.kept| % WORD == 0)
  {
    FusedIsStaged(f, InlineLoss(c.mix, c.loss), s, seed, ps);
    InlineIsUniform(c, seed, 0, Run(f, s, ps).kept);
  }
}
