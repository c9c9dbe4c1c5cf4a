/**
 Whole paths of the emulator that rely on hardware (examples/moonem.lua): a
 receive loop adds packets to the ring of a launch timer, whose transmit loop
 takes them out in batches and puts them on the wire.

 The ring may refuse packets, and the batches may be cut anywhere; all that is
 assumed of them is that they hold nothing but packets that were added.  Both
 network cards tell the same time.
 */
module HardwarePaths {
  import opened Integers
  import opened Reals
  import opened Sequences
  import opened Stages
  import opened TokenBucket
  import opened LossModels
  import opened ShaperLoops
  import RateLaws
  import LB = LeakyBucket
  import Crc = CrcRateControl
  import LT = LaunchTime

  // ---------------------------------------------------------------- receivers

  /** `q` is the packet `p`, due `delay` after its arrival and up to `wait` more. */
  predicate Stems(q: Pkt, p: Pkt, delay: nat, wait: real) {
    && q.id == p.id && q.len == p.len
    && p.stamp + delay <= q.stamp && q.stamp as real <= (p.stamp + delay) as real + wait
  }

  /** Packets that stem from one of `ps`. */
  function StemsFrom(ps: seq<Pkt>, delay: nat, wait: real): Pkt -> bool {
    (q: Pkt) => exists p :: p in ps && Stems(q, p, delay, wait)
  }

  /** The same for packets that carry their departure. */
  function DepartsFrom(ps: seq<Pkt>, delay: nat, wait: real): LB.Departure -> bool {
    (d: LB.Departure) => exists p :: p in ps && Stems(d.pkt, p, delay, wait)
  }

  predicate AllStem(qs: seq<Pkt>, ps: seq<Pkt>, delay: nat, wait: real) {
    forall i :: 0 <= i < |qs| ==> StemsFrom(ps, delay, wait)(qs[i])
  }

  lemma Stemming(q: Pkt, p: Pkt, ps: seq<Pkt>, delay: nat, wait: real)
    requires p in ps && Stems(q, p, delay, wait)
    ensures StemsFrom(ps, delay, wait)(q)
  {
  }

  /** Losses leave packets as they are. */
  lemma LossKeeps<P>(c: LossConfig, s: LossState, ps: seq<P>, good: P -> bool, kept: seq<P>)
    requires kept == Run(Loss(c), s, ps).kept
    requires forall i :: 0 <= i < |ps| ==> good(ps[i])
    ensures forall i :: 0 <= i < |kept| ==> good(kept[i])
  {
    KeptAll(Loss(c), s, ps, good);
  }

  /** What the delay loop adds to the ring. */
  function DelayOutput(c: Settings, ps: seq<Pkt>): seq<Pkt>
    requires c.Valid()
  {
    Run(Loss(c.Losses()), LossState(c.seed, 0), Due(ps, c.delay)).kept
  }

  lemma DelayStems(c: Settings, ps: seq<Pkt>)
    requires c.Valid()
    ensures AllStem(DelayOutput(c, ps), ps, c.delay, 0.0)
  {
    var due := Due(ps, c.delay);
    forall i | 0 <= i < |due| ensures StemsFrom(ps, c.delay, 0.0)(due[i]) {
      Stemming(due[i], ps[i], ps, c.delay, 0.0);
    }
    LossKeeps(c.Losses(), LossState(c.seed, 0), due, StemsFrom(ps, c.delay, 0.0), DelayOutput(c, ps));
  }

  /** What the token-bucket loop adds to the ring. */
  function TokenOutput(c: Settings, ps: seq<Pkt>): seq<Pkt>
    requires c.Valid()
  {
    Run(Loss(c.Losses()), LossState(c.seed, 0), Run(Lazy(BucketOf(c)), EMPTY, ps).kept).kept
  }

  lemma PolicedStem(b: Bucket, ps: seq<Pkt>, policed: seq<Pkt>)
    requires policed == Run(Lazy(b), EMPTY, ps).kept
    ensures forall i :: 0 <= i < |policed| ==> StemsFrom(ps, b.delay, 0.0)(policed[i])
  {
    forall s: Tokens, i | 0 <= i < |ps| && Lazy(b)(s, ps[i]).1.Some?
      ensures StemsFrom(ps, b.delay, 0.0)(Lazy(b)(s, ps[i]).1.value)
    {
      Stemming(Lazy(b)(s, ps[i]).1.value, ps[i], ps, b.delay, 0.0);
    }
    KeptAll(Lazy(b), EMPTY, ps, StemsFrom(ps, b.delay, 0.0));
  }

  lemma TokenStems(c: Settings, ps: seq<Pkt>)
    requires c.Valid()
    ensures AllStem(TokenOutput(c, ps), ps, c.delay, 0.0)
  {
    var policed := Run(Lazy(BucketOf(c)), EMPTY, ps).kept;
    PolicedStem(BucketOf(c), ps, policed);
    LossKeeps(c.Losses(), LossState(c.seed, 0), policed, StemsFrom(ps, c.delay, 0.0), TokenOutput(c, ps));
  }

  /** What the leaky-bucket loop adds to the ring. */
  function LeakyOutput(c: Settings, ps: seq<Pkt>): seq<Pkt>
    requires c.Valid() && c.rate > 0
  {
    Packets(Run(Loss(c.Losses()), LossState(c.seed, 0), Run(LB.Virtual(ShaperOf(c)), 0.0, ps).kept).kept)
  }

  lemma VirtualStems(c: LB.Shaper, nextAt: real, p: Pkt, ps: seq<Pkt>)
    requires c.Valid() && p in ps && LB.Virtual(c)(nextAt, p).1.Some?
    ensures DepartsFrom(ps, c.delay, c.Bound())(LB.Virtual(c)(nextAt, p).1.value)
  {
    LB.VirtualApplied(c, nextAt, p);
    var d := LB.Virtual(c)(nextAt, p).1.value;
    assert Stems(d.pkt, p, c.delay, c.Bound());
  }

  lemma ShapedDepart(c: LB.Shaper, ps: seq<Pkt>, shaped: seq<LB.Departure>)
    requires c.Valid() && shaped == Run(LB.Virtual(c), 0.0, ps).kept
    ensures forall i :: 0 <= i < |shaped| ==> DepartsFrom(ps, c.delay, c.Bound())(shaped[i])
  {
    forall s: real, i | 0 <= i < |ps| && LB.Virtual(c)(s, ps[i]).1.Some?
      ensures DepartsFrom(ps, c.delay, c.Bound())(LB.Virtual(c)(s, ps[i]).1.value)
    {
      VirtualStems(c, s, ps[i], ps);
    }
    KeptAll(LB.Virtual(c), 0.0, ps, DepartsFrom(ps, c.delay, c.Bound()));
  }

  lemma PacketsStem(ds: seq<LB.Departure>, ps: seq<Pkt>, delay: nat, wait: real)
    requires forall i :: 0 <= i < |ds| ==> DepartsFrom(ps, delay, wait)(ds[i])
    ensures AllStem(Packets(ds), ps, delay, wait)
  {
    forall i | 0 <= i < |ds| ensures StemsFrom(ps, delay, wait)(Packets(ds)[i]) {
      assert DepartsFrom(ps, delay, wait)(ds[i]);
      var p :| p in ps && Stems(ds[i].pkt, p, delay, wait);
      Stemming(ds[i].pkt, p, ps, delay, wait);
    }
  }

  lemma LeakyStems(c: Settings, ps: seq<Pkt>)
    requires c.Valid() && c.rate > 0
    ensures AllStem(LeakyOutput(c, ps), ps, c.delay, ShaperOf(c).Bound())
  {
    var shaper := ShaperOf(c);
    var shaped := Run(LB.Virtual(shaper), 0.0, ps).kept;
    var thinned := Run(Loss(c.Losses()), LossState(c.seed, 0), shaped).kept;
    ShapedDepart(shaper, ps, shaped);
    LossKeeps(c.Losses(), LossState(c.seed, 0), shaped, DepartsFrom(ps, c.delay, shaper.Bound()), thinned);
    PacketsStem(thinned, ps, c.delay, shaper.Bound());
  }

  // ---------------------------------------------------------------- the launch timer

  /** A packet of the ring as the launch timer sees it. */
  function Loaded(p: Pkt): Crc.Packet { Crc.Packet(p.id, p.len, p.stamp, 0, false) }

  /** The batches hold nothing but packets that were added to the ring. */
  predicate Fed(rounds: seq<seq<Crc.Packet>>, out: seq<Pkt>) {
    forall i, j :: 0 <= i < |rounds| && 0 <= j < |rounds[i]| ==> FromRing(rounds[i][j], out)
  }

  predicate FromRing(w: Crc.Packet, out: seq<Pkt>) { exists q :: q in out && w == Loaded(q) }

  /** The promise of a path for the packet that was due at `due`. */
  predicate WithinPath(line: LT.Line, start: nat, late: bool, due: nat, wait: real) {
    var time := line.first as real + start as real * line.ns;
    && due as real - line.MinWire() as real * line.ns < time
    && time < due as real + wait + (if late then 100001.0 else 1.0)
  }

  /** The packet at a place of the wire arrived at the path, and starts in time. */
  ghost predicate Emulated(line: LT.Line, wire: seq<Crc.Frame>, k: nat, ps: seq<Pkt>, delay: nat, wait: real)
    requires k < |wire| && wire[k].Load?
  {
    exists p :: p in ps && wire[k].pkt.id == p.id && wire[k].pkt.len == p.len
                && WithinPath(line, Crc.Bytes(line.overhead, wire[..k]), wire[k].pkt.late, p.stamp + delay, wait)
  }

  lemma PathPromise(line: LT.Line, start: nat, w: Crc.Packet, q: Pkt, p: Pkt, delay: nat, wait: real)
    requires LT.WithinPromise(line, start, w) && w.goal == q.stamp && Stems(q, p, delay, wait)
    ensures WithinPath(line, start, w.late, p.stamp + delay, wait)
  {
  }

  /** From arrival to wire, for every receiver whose packets stem from arrivals:
      in every complete run, every packet on the wire arrived, and starts later
      than its due time minus one minimum frame, and no later than promised. */
  lemma PathAccuracy(line: LT.Line, rounds: seq<seq<Crc.Packet>>, out: seq<Pkt>, ps: seq<Pkt>,
                     delay: nat, wait: real, k: nat)
    requires line.Valid() && LT.RunComplete(line, LT.Start(line), rounds)
    requires Fed(rounds, out) && AllStem(out, ps, delay, wait)
    requires var wire := LT.Run(line, LT.Start(line), rounds).wire; k < |wire| && wire[k].Load?
    ensures Emulated(line, LT.Run(line, LT.Start(line), rounds).wire, k, ps, delay, wait)
  {
    var wire := LT.Run(line, LT.Start(line), rounds).wire;
    LT.LaunchTimeAccuracy(line, rounds, k);
    var i, j := LT.AcceptedInTime(line, rounds, wire[k].pkt);
    assert FromRing(rounds[i][j], out);
    var q :| q in out && rounds[i][j] == Loaded(q);
    var p := Origin(out, q, ps, delay, wait);
    PathPromise(line, Crc.Bytes(line.overhead, wire[..k]), wire[k].pkt, q, p, delay, wait);
  }

  lemma Origin(out: seq<Pkt>, q: Pkt, ps: seq<Pkt>, delay: nat, wait: real) returns (p: Pkt)
    requires q in out && AllStem(out, ps, delay, wait)
    ensures p in ps && Stems(q, p, delay, wait)
  {
    var i :| 0 <= i < |out| && out[i] == q;
    assert StemsFrom(ps, delay, wait)(out[i]);
    p :| p in ps && Stems(q, p, delay, wait);
  }

  // ---------------------------------------------------------------- the paths

  /** The path with plain delay: a packet starts its delay after its arrival. */
  lemma DelayPathAccuracy(c: Settings, line: LT.Line, ps: seq<Pkt>, rounds: seq<seq<Crc.Packet>>, k: nat)
    requires c.Valid() && line.Valid() && LT.RunComplete(line, LT.Start(line), rounds)
    requires Fed(rounds, DelayOutput(c, ps))
    requires var wire := LT.Run(line, LT.Start(line), rounds).wire; k < |wire| && wire[k].Load?
    ensures Emulated(line, LT.Run(line, LT.Start(line), rounds).wire, k, ps, c.delay, 0.0)
  {
    DelayStems(c, ps);
    PathAccuracy(line, rounds, DelayOutput(c, ps), ps, c.delay, 0.0, k);
  }

  /** The path with a token bucket: the same. */
  lemma TokenPathAccuracy(c: Settings, line: LT.Line, ps: seq<Pkt>, rounds: seq<seq<Crc.Packet>>, k: nat)
    requires c.Valid() && line.Valid() && LT.RunComplete(line, LT.Start(line), rounds)
    requires Fed(rounds, TokenOutput(c, ps))
    requires var wire := LT.Run(line, LT.Start(line), rounds).wire; k < |wire| && wire[k].Load?
    ensures Emulated(line, LT.Run(line, LT.Start(line), rounds).wire, k, ps, c.delay, 0.0)
  {
    TokenStems(c, ps);
    PathAccuracy(line, rounds, TokenOutput(c, ps), ps, c.delay, 0.0, k);
  }

  /** The path with a leaky bucket: up to the bound of the backlog later. */
  lemma LeakyPathAccuracy(c: Settings, line: LT.Line, ps: seq<Pkt>, rounds: seq<seq<Crc.Packet>>, k: nat)
    requires c.Valid() && c.rate > 0 && line.Valid() && LT.RunComplete(line, LT.Start(line), rounds)
    requires Fed(rounds, LeakyOutput(c, ps))
    requires var wire := LT.Run(line, LT.Start(line), rounds).wire; k < |wire| && wire[k].Load?
    ensures Emulated(line, LT.Run(line, LT.Start(line), rounds).wire, k, ps, c.delay, ShaperOf(c).Bound())
  {
    LeakyStems(c, ps);
    PathAccuracy(line, rounds, LeakyOutput(c, ps), ps, c.delay, ShaperOf(c).Bound(), k);
  }

  // ---------------------------------------------------------------- the code

  /** What the configured receive loop adds to the ring, and how much later than
      the delay its packets may be due. */
  function Output(c: Settings, leaky: bool, ps: seq<Pkt>): seq<Pkt>
    requires c.Valid()
  {
    if c.rate == 0 then DelayOutput(c, ps) else if leaky then LeakyOutput(c, ps) else TokenOutput(c, ps)
  }

  function Wait(c: Settings, leaky: bool): (wait: real)
    ensures c.rate > 0 && leaky ==> wait * c.rate as real == 8000.0 * c.capacity as real
    ensures c.rate == 0 || !leaky ==> wait == 0.0
  {
    if c.rate > 0 && leaky then
      BacklogBound(c.capacity as real, c.rate as real);
      ShaperOf(c).Bound()
    else 0.0
  }

  /** The longest wait is the time that the capacity takes at the rate. */
  lemma BacklogBound(capacity: real, rate: real)
    requires rate > 0.0
    ensures capacity / (rate / 1000.0 / 8.0) * rate == 8000.0 * capacity
  {
    var unit := rate / 1000.0 / 8.0;
    DivideMultiply(capacity, unit);
    assert capacity / unit * rate == 8000.0 * (capacity / unit * unit);
  }

  lemma OutputStems(c: Settings, leaky: bool, ps: seq<Pkt>)
    requires c.Valid()
    ensures AllStem(Output(c, leaky, ps), ps, c.delay, Wait(c, leaky))
  {
    if c.rate == 0 {
      DelayStems(c, ps);
    } else if leaky {
      LeakyStems(c, ps);
    } else {
      TokenStems(c, ps);
    }
  }

  /** hw_rx_loop with a delay: chooses the receive loop.  What leaves is what the
      loss model leaves of the packets that pass, each when it is due. */
  method HwRxLoop(c: Settings, leaky: bool, bursts: seq<seq<Pkt>>) returns (out: seq<Pkt>)
    requires c.Valid() && FitBuffers(bursts)
    ensures out == Output(c, leaky, Flat(bursts))
    ensures var stream := if c.rate == 0 then Due(Flat(bursts), c.delay)
                          else if leaky then RateLaws.Scheduled(HwLaw(c), Flat(bursts)).kept
                          else RateLaws.Passed(HwLaw(c), true, Flat(bursts));
            out == Run(Loss(c.Losses()), LossState(c.seed, 0), stream).kept
  {
    if c.rate == 0 {
      out := ReceiverLoopDelay(c, bursts);
    } else if leaky {
      out := ReceiverLoopLeakyBucket(c, bursts);
    } else {
      out := ReceiverLoopTokenBucket(c, bursts);
    }
  }

  function AllLoaded(ps: seq<Pkt>): (ws: seq<Crc.Packet>)
    ensures |ws| == |ps| && forall i :: 0 <= i < |ps| ==> ws[i] == Loaded(ps[i])
  {
    seq(|ps|, i requires 0 <= i < |ps| => Loaded(ps[i]))
  }

  /** Takes batches from the ring: at most as many packets as asked for, at most
      64, and none if the ring is empty. */
  method TakeBatches(out: seq<Pkt>, sizes: seq<nat>) returns (rounds: seq<seq<Crc.Packet>>)
    ensures |rounds| == |sizes| && Flat(rounds) <= AllLoaded(out)
    ensures forall i :: 0 <= i < |rounds| ==> |rounds[i]| <= 64
  {
    rounds := [];
    var left := AllLoaded(out);
    ghost var all := left;
    assert [] + left == left;
    for i := 0 to |sizes|
      invariant |rounds| == i && Flat(rounds) + left == all
      invariant forall j :: 0 <= j < |rounds| ==> |rounds[j]| <= Crc.TRANSMIT_BUFFER_SIZE
    {
      var n := Least(Least(sizes[i], Crc.TRANSMIT_BUFFER_SIZE), |left|);
      OneMoreBatch(rounds, left, n);
      rounds := rounds + [left[..n]];
      left := left[n..];
    }
  }

  lemma OneMoreBatch<T>(parts: seq<seq<T>>, left: seq<T>, n: nat)
    requires n <= |left|
    ensures Flat(parts + [left[..n]]) + left[n..] == Flat(parts) + left
  {
    assert (parts + [left[..n]])[..|parts|] == parts;
    assert left == left[..n] + left[n..];
  }

  lemma {:induction false} InFlat<T>(parts: seq<seq<T>>, i: nat, j: nat)
    requires i < |parts| && j < |parts[i]|
    ensures parts[i][j] in Flat(parts)
  {
    var n := |parts| - 1;
    assert Flat(parts) == Flat(parts[..n]) + parts[n];
    if i < n {
      InFlat(parts[..n], i, j);
    } else {
      assert Flat(parts)[|Flat(parts[..n])| + j] == parts[i][j];
    }
  }

  lemma PrefixFeeds(rounds: seq<seq<Crc.Packet>>, out: seq<Pkt>)
    requires Flat(rounds) <= AllLoaded(out)
    ensures Fed(rounds, out)
  {
    forall i, j | 0 <= i < |rounds| && 0 <= j < |rounds[i]|
      ensures FromRing(rounds[i][j], out)
    {
      InFlat(rounds, i, j);
      var n :| 0 <= n < |Flat(rounds)| && Flat(rounds)[n] == rounds[i][j];
      assert AllLoaded(out)[n] == Loaded(out[n]) && out[n] in out;
    }
  }

  /** Every packet on the wire arrived at the path, and starts in time. */
  ghost predicate AllEmulated(line: LT.Line, wire: seq<Crc.Frame>, ps: seq<Pkt>, delay: nat, wait: real) {
    forall k: nat :: k < |wire| && wire[k].Load? ==> Emulated(line, wire, k, ps, delay, wait)
  }

  lemma PathAccurate(line: LT.Line, rounds: seq<seq<Crc.Packet>>, c: Settings, leaky: bool, ps: seq<Pkt>)
    requires c.Valid() && line.Valid() && LT.RunComplete(line, LT.Start(line), rounds)
    requires Fed(rounds, Output(c, leaky, ps))
    ensures AllEmulated(line, LT.Run(line, LT.Start(line), rounds).wire, ps, c.delay, Wait(c, leaky))
  {
    var wire := LT.Run(line, LT.Start(line), rounds).wire;
    OutputStems(c, leaky, ps);
    forall k: nat | k < |wire| && wire[k].Load? ensures Emulated(line, wire, k, ps, c.delay, Wait(c, leaky)) {
      PathAccuracy(line, rounds, Output(c, leaky, ps), ps, c.delay, Wait(c, leaky), k);
    }
  }

  /** The receive loop and the launch timer together, for any bursts and however
      the ring is emptied: every packet on the wire arrived and starts in time,
      unless the end of a batch was lost. */
  method HardwarePath(c: Settings, leaky: bool, bursts: seq<seq<Pkt>>, sizes: seq<nat>,
                      timer: LT.DelayEmulator, timestamp: nat)
    returns (ghost rounds: seq<seq<Crc.Packet>>)
    requires c.Valid() && FitBuffers(bursts)
    requires timer.Valid() && timer.ratelimiter.previousMissingDelay == 0
    modifies timer, timer.ratelimiter
    ensures |rounds| == |sizes| && Flat(rounds) <= AllLoaded(Output(c, leaky, Flat(bursts)))
    ensures timer.Valid() && timer.firstTimestamp == timestamp
    ensures var line := timer.Calibrated();
            LT.RunComplete(line, LT.Start(line), rounds) ==>
              AllEmulated(line, timer.View().wire, Flat(bursts), c.delay, Wait(c, leaky))
  {
    var out := HwRxLoop(c, leaky, bursts);
    var batches := TakeBatches(out, sizes);
    timer.TransmitLoop(timestamp, batches);
    rounds := batches;
    ghost var line := timer.Calibrated();
    if LT.RunComplete(line, LT.Start(line), rounds) {
      PrefixFeeds(rounds, out);
      PathAccurate(line, rounds, c, leaky, Flat(bursts));
    }
  }
}
