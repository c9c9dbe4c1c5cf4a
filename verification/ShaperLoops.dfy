/**
 The receive loops of the path emulator that rely on hardware time stamps
 (src/moonem.cpp): bursts come in, shaped and thinned packets go out.  Reading
 the network card and the ring to the transmitter are the methods' arguments
 and results.  The endless loops run over any number of bursts.
 */
module ShaperLoops {
  import opened Integers
  import opened Reals
  import opened Sequences
  import opened Stages
  import opened TokenBucket
  import opened LossModels
  import RateLaws
  import LB = LeakyBucket

  /** What a path is configured with. */
  datatype Settings = Settings(
    delay: nat, rate: nat, capacity: nat, seed: Word, lossType: LossType, loss: Word, params: seq<Word>)
  {
    predicate Valid() { |params| == 8 }

    function Losses(): LossConfig
      requires Valid()
    {
      Config(lossType, loss, params, Mix)
    }
  }

  /** What the network card delivers at once is limited. */
  predicate FitBuffers<P>(bursts: seq<seq<P>>) {
    forall i :: 0 <= i < |bursts| ==> |bursts[i]| <= 64
  }

  /** Loss behind a shaper: applied if a model is configured. */
  method Thin<P>(device: LossDevice, accepted: seq<P>) returns (out: seq<P>)
    requires |accepted| <= BURST_SIZE && Known(device.config, device.State())
    modifies device
    ensures Known(device.config, device.State())
    ensures var t := Run(Loss(device.config), old(device.State()), accepted);
            out == t.kept && device.State() == t.state
  {
    if device.config.lossType.NONE? || |accepted| == 0 {
      out := accepted;
      if device.config.lossType.NONE? {
        NoModelKeeps(device.config, device.State(), accepted);
      }
    } else {
      var bufsSend := new P[|accepted|](i requires 0 <= i < |accepted| => accepted[i]);
      var n, freed := device.ApplyLoss(accepted, bufsSend);
      out := bufsSend[..n];
    }
  }

  // ---------------------------------------------------------------- delay

  /** The packets, each due `delay` after its time stamp. */
  function Due(ps: seq<Pkt>, delay: nat): (qs: seq<Pkt>)
    ensures |qs| == |ps| && forall i :: 0 <= i < |ps| ==> qs[i] == ps[i].(stamp := ps[i].stamp + delay)
  {
    seq(|ps|, i requires 0 <= i < |ps| => ps[i].(stamp := ps[i].stamp + delay))
  }

  function AllDue(bursts: seq<seq<Pkt>>, delay: nat): (qs: seq<seq<Pkt>>)
    ensures |qs| == |bursts| && forall i :: 0 <= i < |bursts| ==> qs[i] == Due(bursts[i], delay)
  {
    seq(|bursts|, i requires 0 <= i < |bursts| => Due(bursts[i], delay))
  }

  lemma {:induction false} FlatDue(bursts: seq<seq<Pkt>>, delay: nat)
    ensures Flat(AllDue(bursts, delay)) == Due(Flat(bursts), delay)
  {
    if bursts != [] {
      var front := bursts[..|bursts| - 1];
      FlatDue(front, delay);
      assert AllDue(bursts, delay)[..|front|] == AllDue(front, delay);
    }
  }

  method StampDue(bufs: seq<Pkt>, delay: nat) returns (rxPkts: array<Pkt>)
    ensures fresh(rxPkts) && rxPkts[..] == Due(bufs, delay)
  {
    rxPkts := new Pkt[|bufs|](i requires 0 <= i < |bufs| => bufs[i]);
    for i := 0 to |bufs|
      invariant forall k :: 0 <= k < i ==> rxPkts[k] == bufs[k].(stamp := bufs[k].stamp + delay)
      invariant forall k :: i <= k < |bufs| ==> rxPkts[k] == bufs[k]
    {
      var ts := rxPkts[i].stamp;
      var sendTime := ts + delay;
      rxPkts[i] := rxPkts[i].(stamp := sendTime);
    }
  }

  /** receiver_loop_delay, over any bursts.  What leaves is what the loss model
      leaves of the whole stream, however it is cut into bursts. */
  method ReceiverLoopDelay(c: Settings, bursts: seq<seq<Pkt>>) returns (out: seq<Pkt>)
    requires c.Valid() && FitBuffers(bursts)
    ensures var thinned := Run(Loss(c.Losses()), LossState(c.seed, 0), Due(Flat(bursts), c.delay));
            out == thinned.kept && |out| + |thinned.dropped| == |Flat(bursts)|
  {
    var loss := new LossDevice(c.lossType, c.loss, c.params, c.seed);
    out := DelayBursts(loss, c.delay, bursts);
    BurstsIrrelevant(Loss(c.Losses()), LossState(c.seed, 0), AllDue(bursts, c.delay));
    FlatDue(bursts, c.delay);
    RunCounts(Loss(c.Losses()), LossState(c.seed, 0), Due(Flat(bursts), c.delay));
  }

  /** The outer loop. */
  method DelayBursts(loss: LossDevice, delay: nat, bursts: seq<seq<Pkt>>) returns (out: seq<Pkt>)
    requires FitBuffers(bursts) && Known(loss.config, loss.State())
    modifies loss
    ensures var t := RunBursts(Loss(loss.config), old(loss.State()), AllDue(bursts, delay));
            loss.State() == t.state && out == t.kept
  {
    out := [];
    ghost var due := AllDue(bursts, delay);
    for i := 0 to |bursts|
      invariant Known(loss.config, loss.State())
      invariant var t := RunBursts(Loss(loss.config), old(loss.State()), due[..i]);
                loss.State() == t.state && out == t.kept
    {
      RunBurstsStep(Loss(loss.config), old(loss.State()), due, i);
      var rxPkts := StampDue(bursts[i], delay);
      var sent := Thin(loss, rxPkts[..]);
      out := out + sent;
    }
    assert due[..|bursts|] == due;
  }

  // ---------------------------------------------------------------- token bucket

  /** The tokens that are there at a later time. */
  method Refill(b: Bucket, previous: Tokens, time: nat) returns (level: real)
    ensures level == Level(b, previous, time)
  {
    level := Min(previous.level + (time - previous.at) as real * b.rate, b.capacity);
    AmountIsProduct(time - previous.at, b.rate);
  }

  /** The bucket of the hardware loops: tokens are bytes, time is nanoseconds. */
  function BucketOf(c: Settings): Bucket {
    Bucket(c.rate as real / 8000.0, c.capacity as real, c.delay, true)
  }

  /** A configured rate of `rate` Mbit/s is `rate` bytes in 8000 ns. */
  function HwLaw(c: Settings): RateLaws.Law { RateLaws.Law(c.rate, 8000, c.capacity, c.delay) }

  lemma HwBucketKeeps(c: Settings)
    ensures RateLaws.Keeps(HwLaw(c), BucketOf(c))
  {
    TimesIsProduct(HwLaw(c).den, BucketOf(c).rate);
  }

  /** What the law of a path means in nanoseconds, bytes and Mbit/s: a packet
      passes if and only if it is smaller than the capacity and neither all that
      passed before it nor any part from one packet on exceeds the rate. */
  lemma HwFair(c: Settings, accepted: seq<Pkt>, p: Pkt)
    ensures RateLaws.Fair(HwLaw(c), true, accepted, p) <==>
            && p.len + 24 < c.capacity
            && 8000 * (RateLaws.Bytes(accepted) + p.len + 24) < c.rate * p.stamp
            && forall j :: 0 <= j < |accepted| ==> HwMayFollow(c, accepted[j..], p)
  {
    var l := HwLaw(c);
    MulIsProduct(l.den, RateLaws.Bytes(accepted) + p.len + 24);
    MulIsProduct(l.num, p.stamp);
    forall j | 0 <= j < |accepted|
      ensures RateLaws.AllowsOneMore(l, true, accepted[j..], p) <==> HwMayFollow(c, accepted[j..], p)
    {
      HwWindow(c, RateLaws.Bytes(accepted[j..]) + p.len + 24, p.stamp - (accepted[j..][0].stamp - c.delay));
    }
  }

  predicate HwMayFollow(c: Settings, window: seq<Pkt>, p: Pkt)
    requires window != []
  {
    HwAllows(c, RateLaws.Bytes(window) + p.len + 24, p.stamp - (window[0].stamp - c.delay))
  }

  predicate HwAllows(c: Settings, bytes: int, ns: int) { 8000 * (bytes - c.capacity) < c.rate * ns }

  lemma HwWindow(c: Settings, bytes: int, ns: int)
    ensures RateLaws.WindowAllows(HwLaw(c), true, bytes, ns) <==> HwAllows(c, bytes, ns)
  {
    MulIsProduct(HwLaw(c).den, bytes - c.capacity);
    MulIsProduct(HwLaw(c).num, ns);
  }

  /** No window of a stream exceeds the rate by more than the capacity. */
  predicate HwWithinRate(c: Settings, ps: seq<Pkt>) {
    forall i, j :: 0 <= i < j <= |ps| ==>
      HwAllows(c, RateLaws.Bytes(ps[i..j]), ps[j - 1].stamp - ps[i].stamp)
  }

  lemma HwPassedWindow(c: Settings, ps: seq<Pkt>, out: seq<Pkt>, i: nat, j: nat)
    requires out == RateLaws.Passed(HwLaw(c), true, ps) && i < j <= |out|
    ensures HwAllows(c, RateLaws.Bytes(out[i..j]), out[j - 1].stamp - out[i].stamp)
  {
    HwBucketKeeps(c);
    RateLaws.PassedBounded(HwLaw(c), BucketOf(c), ps, i, j);
    HwWindow(c, RateLaws.Bytes(out[i..j]), out[j - 1].stamp - out[i].stamp);
  }

  lemma HwPassedWithinRate(c: Settings, ps: seq<Pkt>, out: seq<Pkt>)
    requires out == RateLaws.Passed(HwLaw(c), true, ps)
    ensures HwWithinRate(c, out)
  {
    forall i, j | 0 <= i < j <= |out|
      ensures HwAllows(c, RateLaws.Bytes(out[i..j]), out[j - 1].stamp - out[i].stamp)
    {
      HwPassedWindow(c, ps, out, i, j);
    }
  }

  /** The bucket passes what the law of the path passes. */
  lemma HwPolices(c: Settings, ps: seq<Pkt>)
    ensures Run(Lazy(BucketOf(c)), EMPTY, ps).kept == RateLaws.Passed(HwLaw(c), true, ps)
    ensures HwWithinRate(c, RateLaws.Passed(HwLaw(c), true, ps))
  {
    HwBucketKeeps(c);
    RateLaws.BucketKeepsLaw(HwLaw(c), BucketOf(c), ps);
    HwPassedWithinRate(c, ps, RateLaws.Passed(HwLaw(c), true, ps));
  }

  /** receiver_loop_rate_token_bucket; with delay 0 also the forwarding variant. */
  class TokenBucketReceiver {
    const bucket: Bucket
    const loss: LossDevice
    var previousTimestamp: nat
    var previousTokens: real

    constructor (c: Settings, loss: LossDevice)
      ensures bucket == BucketOf(c) && this.loss == loss && State() == EMPTY
      ensures bucket.rate * 8000.0 == c.rate as real && bucket.capacity == c.capacity as real
      ensures bucket.delay == c.delay && bucket.strict
    {
      bucket := BucketOf(c);
      this.loss := loss;
      previousTimestamp, previousTokens := 0, 0.0;
    }

    function State(): Tokens
      reads this
    {
      Tokens(previousTokens, previousTimestamp)
    }

    method Receive(bufs: seq<Pkt>) returns (out: seq<Pkt>)
      requires bucket.strict && |bufs| <= BURST_SIZE && Known(loss.config, loss.State())
      modifies this, loss
      ensures Known(loss.config, loss.State())
      ensures var shaped := Run(Lazy(bucket), old(State()), bufs);
              var thinned := Run(Loss(loss.config), old(loss.State()), shaped.kept);
              State() == shaped.state && loss.State() == thinned.state && out == thinned.kept
    {
      var accepted: seq<Pkt> := [];
      ghost var freed: seq<Pkt> := [];
      for i := 0 to |bufs|
        invariant unchanged(loss) && |accepted| <= i
        invariant Trace(State(), accepted, freed) == Run(Lazy(bucket), old(State()), bufs[..i])
      {
        assert bufs[..i + 1][..i] == bufs[..i];
        var out := Police(bufs[i]);
        match out {
          case Some(q) => accepted := accepted + [q];
          case None => freed := freed + [bufs[i]];
        }
      }
      assert bufs[..|bufs|] == bufs;
      out := Thin(loss, accepted);
    }

    /** The body of the loop: one packet meets the bucket. */
    method Police(pkt: Pkt) returns (out: Option<Pkt>)
      requires bucket.strict
      modifies this
      ensures (State(), out) == Lazy(bucket)(old(State()), pkt)
    {
      var recvTime := pkt.stamp;
      var currentTokens := Refill(bucket, State(), recvTime);
      if currentTokens > (pkt.len + 24) as real {
        previousTimestamp := recvTime;
        previousTokens := currentTokens - (pkt.len + 24) as real;
        out := Some(pkt.(stamp := recvTime + bucket.delay));
      } else {
        out := None;
      }
    }

    /** The outer loop. */
    method Loop(bursts: seq<seq<Pkt>>) returns (out: seq<Pkt>)
      requires bucket.strict && FitBuffers(bursts) && Known(loss.config, loss.State())
      modifies this, loss
      ensures (State(), loss.State(), out)
              == StagedBursts(Lazy(bucket), Loss(loss.config), old(State()), old(loss.State()), bursts)
    {
      out := [];
      for i := 0 to |bursts|
        invariant Known(loss.config, loss.State())
        invariant (State(), loss.State(), out)
                  == StagedBursts(Lazy(bucket), Loss(loss.config), old(State()), old(loss.State()), bursts[..i])
      {
        assert bursts[..i + 1][..i] == bursts[..i];
        var sent := Receive(bursts[i]);
        out := out + sent;
      }
      assert bursts[..|bursts|] == bursts;
    }
  }

  /** receiver_loop_rate_token_bucket, over any bursts: the bucket, then the loss
      model, over the whole stream.  What passes the bucket is what the law of the
      path passes, no window of it exceeds the rate, and every packet is sent or
      freed. */
  method ReceiverLoopTokenBucket(c: Settings, bursts: seq<seq<Pkt>>) returns (out: seq<Pkt>)
    requires c.Valid() && FitBuffers(bursts)
    ensures var shaped := Run(Lazy(BucketOf(c)), EMPTY, Flat(bursts));
            var thinned := Run(Loss(c.Losses()), LossState(c.seed, 0), shaped.kept);
            && out == thinned.kept
            && shaped.kept == RateLaws.Passed(HwLaw(c), true, Flat(bursts))
            && HwWithinRate(c, shaped.kept)
            && |out| + |thinned.dropped| + |shaped.dropped| == |Flat(bursts)|
  {
    var loss := new LossDevice(c.lossType, c.loss, c.params, c.seed);
    var receiver := new TokenBucketReceiver(c, loss);
    out := receiver.Loop(bursts);
    ghost var lossStart := LossState(c.seed, 0);
    StagedBurstsIrrelevant(Lazy(BucketOf(c)), Loss<Pkt>(c.Losses()), EMPTY, lossStart, bursts);
    HwPolices(c, Flat(bursts));
    RunCounts(Lazy(BucketOf(c)), EMPTY, Flat(bursts));
    RunCounts(Loss<Pkt>(c.Losses()), lossStart, Run(Lazy(BucketOf(c)), EMPTY, Flat(bursts)).kept);
  }

  // ---------------------------------------------------------------- leaky bucket

  /** The packets as they are handed on. */
  function Packets(ds: seq<LB.Departure>): (ps: seq<Pkt>)
    ensures |ps| == |ds| && forall i :: 0 <= i < |ps| ==> ps[i] == ds[i].pkt
  {
    seq(|ds|, i requires 0 <= i < |ds| => ds[i].pkt)
  }

  /** The shaper of the hardware loop: bits per nanosecond. */
  function ShaperOf(c: Settings): (s: LB.Shaper)
    requires c.rate > 0
    ensures s.Valid()
  {
    LB.Shaper(c.rate as real / 1000.0, c.capacity as real, c.delay)
  }

  lemma HwShaperKeeps(c: Settings)
    requires c.rate > 0
    ensures RateLaws.Shapes(HwLaw(c), ShaperOf(c))
  {
    TimesIsProduct(HwLaw(c).den, ShaperOf(c).Unit());
  }

  /** Loss behind a schedule and loss behind its timetable leave the same packets. */
  lemma LossOnTimetable(l: RateLaws.Law, shaper: LB.Shaper, losses: LossConfig, seed: Word, ps: seq<Pkt>)
    requires RateLaws.Shapes(l, shaper)
    ensures var shaped := Run(LB.Virtual(shaper), 0.0, ps);
            Packets(Run(Loss(losses), LossState(seed, 0), shaped.kept).kept)
            == Run(Loss(losses), LossState(seed, 0), RateLaws.Scheduled(l, ps).kept).kept
  {
    RateLaws.ShaperKeepsLaw(l, shaper, ps);
    LossNatural(losses, LossState(seed, 0), Run(LB.Virtual(shaper), 0.0, ps).kept, (d: LB.Departure) => d.pkt,
                RateLaws.Scheduled(l, ps).kept);
  }

  /** receiver_loop_rate_leaky_bucket. */
  class LeakyBucketReceiver {
    const shaper: LB.Shaper
    const loss: LossDevice
    var nextAt: real

    constructor (c: Settings, loss: LossDevice)
      requires c.rate > 0
      ensures shaper == ShaperOf(c) && this.loss == loss && nextAt == 0.0
      ensures shaper.rate * 1000.0 == c.rate as real && shaper.capacity == c.capacity as real
      ensures shaper.delay == c.delay
    {
      shaper := ShaperOf(c);
      this.loss := loss;
      nextAt := 0.0;
    }

    method Receive(bufs: seq<Pkt>) returns (out: seq<LB.Departure>)
      requires shaper.Valid() && |bufs| <= BURST_SIZE && Known(loss.config, loss.State())
      modifies this, loss
      ensures Known(loss.config, loss.State())
      ensures var shaped := Run(LB.Virtual(shaper), old(nextAt), bufs);
              var thinned := Run(Loss(loss.config), old(loss.State()), shaped.kept);
              nextAt == shaped.state && loss.State() == thinned.state && out == thinned.kept
    {
      var accepted: seq<LB.Departure> := [];
      ghost var freed: seq<Pkt> := [];
      for i := 0 to |bufs|
        invariant unchanged(loss) && |accepted| <= i
        invariant Trace(nextAt, accepted, freed) == Run(LB.Virtual(shaper), old(nextAt), bufs[..i])
      {
        assert bufs[..i + 1][..i] == bufs[..i];
        var d := Shape(bufs[i]);
        match d {
          case Some(q) => accepted := accepted + [q];
          case None => freed := freed + [bufs[i]];
        }
      }
      assert bufs[..|bufs|] == bufs;
      out := Thin(loss, accepted);
    }

    /** The body of the loop: one packet is scheduled. */
    method Shape(pkt: Pkt) returns (out: Option<LB.Departure>)
      requires shaper.Valid()
      modifies this
      ensures (nextAt, out) == LB.Virtual(shaper)(old(nextAt), pkt)
    {
      LB.VirtualApplied(shaper, nextAt, pkt);
      var sendTime := pkt.stamp + shaper.delay;
      var realSendTime := Max(sendTime as real, nextAt);
      var backlog := realSendTime - sendTime as real;
      if backlog > shaper.Bound() {
        out := None;
      } else {
        out := Some(LB.Departure(pkt.(stamp := realSendTime.Floor), sendTime, realSendTime));
        nextAt := realSendTime + shaper.Serial(pkt);
      }
    }

    /** The outer loop. */
    method Loop(bursts: seq<seq<Pkt>>) returns (out: seq<LB.Departure>)
      requires shaper.Valid() && FitBuffers(bursts) && Known(loss.config, loss.State())
      modifies this, loss
      ensures (nextAt, loss.State(), out)
              == StagedBursts(LB.Virtual(shaper), Loss(loss.config), old(nextAt), old(loss.State()), bursts)
    {
      out := [];
      for i := 0 to |bursts|
        invariant Known(loss.config, loss.State())
        invariant (nextAt, loss.State(), out)
                  == StagedBursts(LB.Virtual(shaper), Loss(loss.config), old(nextAt), old(loss.State()), bursts[..i])
      {
        assert bursts[..i + 1][..i] == bursts[..i];
        var sent := Receive(bursts[i]);
        out := out + sent;
      }
      assert bursts[..|bursts|] == bursts;
    }
  }

  /** The schedule of a stream keeps packets apart and delays them within
      bounds; in order of arrival it is that of the draining queue. */
  predicate Paces(shaper: LB.Shaper, ps: seq<Pkt>)
    requires shaper.Valid()
  {
    var shaped := Run(LB.Virtual(shaper), 0.0, ps);
    && LB.Spaced(shaper, shaped.kept) && LB.AllPrompt(shaper, shaped.kept)
    && (Sorted(ps) ==> shaped.kept == Run(LB.Fluid(shaper), LB.Queue(0.0, 0), ps).kept)
  }

  /** receiver_loop_rate_leaky_bucket, over any bursts: the schedule, then the
      loss model, over the whole stream.  For packets in order of arrival the
      schedule is that of a draining queue, and in any case packets are spaced
      and wait no longer than the bound. */
  method ReceiverLoopLeakyBucket(c: Settings, bursts: seq<seq<Pkt>>) returns (out: seq<Pkt>)
    requires c.Valid() && c.rate > 0 && FitBuffers(bursts)
    ensures var shaper := ShaperOf(c);
            var shaped := Run(LB.Virtual(shaper), 0.0, Flat(bursts));
            var thinned := Run(Loss(c.Losses()), LossState(c.seed, 0), shaped.kept);
            && out == Packets(thinned.kept)
            && out == Run(Loss(c.Losses()), LossState(c.seed, 0), RateLaws.Scheduled(HwLaw(c), Flat(bursts)).kept).kept
            && Paces(shaper, Flat(bursts))
            && |out| + |thinned.dropped| + |shaped.dropped| == |Flat(bursts)|
  {
    var loss := new LossDevice(c.lossType, c.loss, c.params, c.seed);
    var receiver := new LeakyBucketReceiver(c, loss);
    var sent := receiver.Loop(bursts);
    out := Packets(sent);
    LeakyLoopStages(c, bursts);
    LeakyLoopCounts(c, Flat(bursts));
    LeakyLoopPaces(ShaperOf(c), Flat(bursts));
    HwShaperKeeps(c);
    LossOnTimetable(HwLaw(c), ShaperOf(c), c.Losses(), c.seed, Flat(bursts));
  }

  lemma LeakyLoopStages(c: Settings, bursts: seq<seq<Pkt>>)
    requires c.Valid() && c.rate > 0
    ensures var shaped := Run(LB.Virtual(ShaperOf(c)), 0.0, Flat(bursts));
            StagedBursts(LB.Virtual(ShaperOf(c)), Loss(c.Losses()), 0.0, LossState(c.seed, 0), bursts).2
            == Run(Loss(c.Losses()), LossState(c.seed, 0), shaped.kept).kept
  {
    StagedBurstsIrrelevant(LB.Virtual(ShaperOf(c)), Loss(c.Losses()), 0.0, LossState(c.seed, 0), bursts);
  }

  lemma LeakyLoopCounts(c: Settings, ps: seq<Pkt>)
    requires c.Valid() && c.rate > 0
    ensures var shaped := Run(LB.Virtual(ShaperOf(c)), 0.0, ps);
            var thinned := Run(Loss(c.Losses()), LossState(c.seed, 0), shaped.kept);
            |thinned.kept| + |thinned.dropped| + |shaped.dropped| == |ps|
  {
    RunCounts(LB.Virtual(ShaperOf(c)), 0.0, ps);
    RunCounts(Loss(c.Losses()), LossState(c.seed, 0), Run(LB.Virtual(ShaperOf(c)), 0.0, ps).kept);
  }

  lemma LeakyLoopPaces(shaper: LB.Shaper, ps: seq<Pkt>)
    requires shaper.Valid()
    ensures Paces(shaper, ps)
  {
    LB.RunSpaced(shaper, ps);
    if Sorted(ps) {
      LB.VirtualIsFluid(shaper, ps);
    }
  }
}
