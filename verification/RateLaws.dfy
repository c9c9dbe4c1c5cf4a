/**
 What the shapers promise, in the units of their configuration and in integers.

 A law is a rate of `num` bytes in `den` clock ticks, a capacity in bytes and a
 delay in ticks.  A packet counts with 24 bytes besides its length.  This module
 says which packets of a stream pass and when they are due, without tokens,
 waiting times or fractions, and proves that the buckets do just that.
 */
module RateLaws {
  import opened Integers
  import opened Reals
  import opened Sequences
  import opened Stages
  import opened TokenBucket
  import LB = LeakyBucket

  datatype Law = Law(num: nat, den: nat, capacity: nat, delay: nat)

  /** Bytes of packets, as they count against the rate. */
  function Bytes(ps: seq<Pkt>): nat {
    if ps == [] then 0 else Bytes(ps[..|ps| - 1]) + ps[|ps| - 1].len + 24
  }

  predicate Within(strict: bool, need: int, have: int) { if strict then need < have else need <= have }

  // ---------------------------------------------------------------- policing

  /** `bytes` may pass in a window of `ticks`. */
  predicate WindowAllows(l: Law, strict: bool, bytes: int, ticks: int) {
    Within(strict, Mul(l.den, bytes - l.capacity), Mul(l.num, ticks))
  }

  /** The packet is smaller than the capacity, and neither the stream since the
      start nor any window from an accepted packet on exceeds the rate by it. */
  predicate Fair(l: Law, strict: bool, accepted: seq<Pkt>, p: Pkt) {
    && Within(strict, p.len + 24, l.capacity)
    && Within(strict, Mul(l.den, Bytes(accepted) + p.len + 24), Mul(l.num, p.stamp))
    && forall j :: 0 <= j < |accepted| ==> AllowsOneMore(l, strict, accepted[j..], p)
  }

  /** The packet may pass behind the packets of a window, the first of which
      arrived the delay before its stamp. */
  predicate AllowsOneMore(l: Law, strict: bool, window: seq<Pkt>, p: Pkt)
    requires window != []
  {
    WindowAllows(l, strict, Bytes(window) + p.len + 24, p.stamp - (window[0].stamp - l.delay))
  }

  /** The packets that pass, each due the delay after its arrival. */
  function Passed(l: Law, strict: bool, ps: seq<Pkt>): seq<Pkt> {
    if ps == [] then []
    else
      var front := Passed(l, strict, ps[..|ps| - 1]);
      var p := ps[|ps| - 1];
      if Fair(l, strict, front, p) then front + [p.(stamp := p.stamp + l.delay)] else front
  }

  /** The bucket is configured by the law. */
  predicate Keeps(l: Law, b: Bucket) {
    && l.den > 0 && Times(l.den, b.rate) == l.num as real
    && b.capacity == l.capacity as real && b.delay == l.delay
  }

  lemma {:induction false} TotalIsBytes(ps: seq<Pkt>)
    ensures Total(ps) == Bytes(ps)
  {
    if ps != [] {
      TotalIsBytes(ps[..|ps| - 1]);
    }
  }

  lemma ScaleOrder(a: real, b: real, d: real)
    requires d > 0.0
    ensures a < b <==> a * d < b * d
    ensures a <= b <==> a * d <= b * d
  {
    if a < b {
      MulStrict(a, b, d);
    } else {
      MulOrder(b, a, d);
    }
    if a <= b {
      MulOrder(a, b, d);
    }
  }

  lemma ProductCast(a: int, b: int)
    ensures (a * b) as real == a as real * b as real
  {
  }

  lemma MulCast(n: nat, x: int)
    ensures Mul(n, x) as real == n as real * x as real
  {
    MulIsProduct(n, x);
    ProductCast(n, x);
  }

  lemma Regrouped(t: real, rate: real, d: real, n: real)
    requires d * rate == n
    ensures t * rate * d == n * t
  {
    assert t * rate * d == t * (d * rate);
  }

  lemma Rescaled(bytes: real, t: real, rate: real, d: real, n: real)
    requires d > 0.0 && d * rate == n
    ensures bytes < t * rate <==> d * bytes < n * t
    ensures bytes <= t * rate <==> d * bytes <= n * t
  {
    ScaleOrder(bytes, t * rate, d);
    Regrouped(t, rate, d, n);
  }

  /** A comparison with tokens, in integers. */
  lemma ScaleLaw(bytes: int, ticks: int, rate: real, num: nat, den: nat)
    requires den > 0 && Times(den, rate) == num as real
    ensures bytes as real < Amount(ticks, rate) <==> Mul(den, bytes) < Mul(num, ticks)
    ensures bytes as real <= Amount(ticks, rate) <==> Mul(den, bytes) <= Mul(num, ticks)
  {
    TimesIsProduct(den, rate);
    AmountIsProduct(ticks, rate);
    MulCast(den, bytes);
    MulCast(num, ticks);
    Rescaled(bytes as real, ticks as real, rate, den as real, num as real);
  }

  /** The same for a window with the capacity. */
  lemma WindowInUnits(l: Law, b: Bucket, bytes: nat, first: int, last: int)
    requires Keeps(l, b)
    ensures Fits(b.strict, bytes as real, b.capacity + Earned(b, first, last))
            <==> WindowAllows(l, b.strict, bytes, last - first)
  {
    ScaleLaw(bytes - l.capacity, last - first, b.rate, l.num, l.den);
  }

  lemma AdmitsInUnits(l: Law, b: Bucket, window: seq<Pkt>, p: Pkt)
    requires Keeps(l, b) && window != []
    ensures AdmitsWindow(b, window, p.stamp, p.Size() as real) <==> AllowsOneMore(l, b.strict, window, p)
  {
    TotalIsBytes(window);
    WindowInUnits(l, b, Bytes(window) + p.len + 24, window[0].stamp - l.delay, p.stamp);
  }

  lemma StartInUnits(l: Law, b: Bucket, accepted: seq<Pkt>, p: Pkt)
    requires Keeps(l, b)
    ensures Fits(b.strict, Total(accepted) as real + p.Size() as real, Earned(b, 0, p.stamp))
            <==> Within(b.strict, Mul(l.den, Bytes(accepted) + p.len + 24), Mul(l.num, p.stamp))
  {
    TotalIsBytes(accepted);
    ScaleLaw(Bytes(accepted) + p.len + 24, p.stamp, b.rate, l.num, l.den);
  }

  lemma FairIsConforms(l: Law, b: Bucket, accepted: seq<Pkt>, p: Pkt)
    requires Keeps(l, b)
    ensures Fair(l, b.strict, accepted, p) <==> Conforms(b, accepted, p)
  {
    StartInUnits(l, b, accepted, p);
    WindowsInUnits(l, b, accepted, p);
  }

  lemma WindowsInUnits(l: Law, b: Bucket, accepted: seq<Pkt>, p: Pkt)
    requires Keeps(l, b)
    ensures (forall j :: 0 <= j < |accepted| ==> AdmitsWindow(b, accepted[j..], p.stamp, p.Size() as real))
            <==> (forall j :: 0 <= j < |accepted| ==> AllowsOneMore(l, b.strict, accepted[j..], p))
  {
    forall j | 0 <= j < |accepted|
      ensures AdmitsWindow(b, accepted[j..], p.stamp, p.Size() as real)
              <==> AllowsOneMore(l, b.strict, accepted[j..], p)
    {
      AdmitsInUnits(l, b, accepted[j..], p);
    }
  }

  lemma AcceptsIffFair(l: Law, b: Bucket, ps: seq<Pkt>, p: Pkt)
    requires Keeps(l, b)
    ensures var t := Run(Lazy(b), EMPTY, ps); Accepts(b, t.state, p) <==> Fair(l, b.strict, t.kept, p)
  {
    ExactConformance(b, ps, p);
    FairIsConforms(l, b, Run(Lazy(b), EMPTY, ps).kept, p);
  }

  lemma LazyApplied(b: Bucket, t: Trace<Tokens, Pkt, Pkt>, p: Pkt)
    ensures Apply(Lazy(b), t, p).kept
            == if Accepts(b, t.state, p) then t.kept + [p.(stamp := p.stamp + b.delay)] else t.kept
  {
  }

  /** The token bucket passes exactly the packets of the law. */
  lemma {:induction false} BucketKeepsLaw(l: Law, b: Bucket, ps: seq<Pkt>)
    requires Keeps(l, b)
    ensures Run(Lazy(b), EMPTY, ps).kept == Passed(l, b.strict, ps)
  {
    if ps != [] {
      var front, p := ps[..|ps| - 1], ps[|ps| - 1];
      BucketKeepsLaw(l, b, front);
      AcceptsIffFair(l, b, front, p);
      LazyApplied(b, Run(Lazy(b), EMPTY, front), p);
    }
  }

  lemma PassedWindows(l: Law, b: Bucket, ps: seq<Pkt>)
    requires Keeps(l, b)
    ensures WindowsBounded(b, Passed(l, b.strict, ps))
  {
    BucketKeepsLaw(l, b, ps);
    OutputBounded(b, ps);
  }

  lemma WindowEarned(b: Bucket, out: seq<Pkt>, i: nat, j: nat)
    requires i < j <= |out| && WindowsBounded(b, out)
    ensures Fits(b.strict, Total(out[i..j]) as real, b.capacity + Earned(b, out[i].stamp, out[j - 1].stamp))
  {
    assert WindowBounded(b, out[i..j]);
  }

  /** Every window of what passes is within the rate and the capacity. */
  lemma PassedBounded(l: Law, b: Bucket, ps: seq<Pkt>, i: nat, j: nat)
    requires Keeps(l, b) && i < j <= |Passed(l, b.strict, ps)|
    ensures var out := Passed(l, b.strict, ps);
            WindowAllows(l, b.strict, Bytes(out[i..j]), out[j - 1].stamp - out[i].stamp)
  {
    var out := Passed(l, b.strict, ps);
    PassedWindows(l, b, ps);
    WindowEarned(b, out, i, j);
    TotalIsBytes(out[i..j]);
    WindowInUnits(l, b, Bytes(out[i..j]), out[i].stamp, out[j - 1].stamp);
  }

  // ---------------------------------------------------------------- shaping

  /** Departures on a line that takes `num` bytes in `den` ticks.  Times are
      multiplied by `num`, which makes them integers; `free` is when the line is. */
  datatype Timetable = Timetable(free: nat, kept: seq<Pkt>)

  function Due(l: Law, p: Pkt): nat { Mul(l.num, p.stamp + l.delay) }

  /** When a packet can leave, in scaled time. */
  function Start(l: Law, free: nat, p: Pkt): nat { if Due(l, p) < free then free else Due(l, p) }

  /** The packet at scaled time `at`. */
  function At(l: Law, p: Pkt, at: nat): Pkt
    requires l.num > 0
  {
    p.(stamp := Quotient(at, l.num))
  }

  /** A packet is dropped if it would wait for more than the capacity; otherwise
      it leaves when it is due and the line is free, and occupies the line. */
  function Scheduled(l: Law, ps: seq<Pkt>): Timetable
    requires l.num > 0
  {
    if ps == [] then Timetable(0, [])
    else
      var t := Scheduled(l, ps[..|ps| - 1]);
      var p := ps[|ps| - 1];
      var at := Start(l, t.free, p);
      if at - Due(l, p) > Mul(l.den, l.capacity) then t
      else Timetable(at + Mul(l.den, p.len + 24), t.kept + [At(l, p, at)])
  }

  predicate Shapes(l: Law, c: LB.Shaper) {
    && l.num > 0 && l.den > 0 && c.Valid() && Times(l.den, c.Unit()) == l.num as real
    && c.capacity == l.capacity as real && c.delay == l.delay
  }

  /** `time` is the scaled time `scaled`. */
  predicate Scaled(l: Law, time: real, scaled: int) { Times(l.num, time) == scaled as real }

  lemma ScaledOrder(l: Law, a: real, b: real, x: int, y: int)
    requires l.num > 0 && Scaled(l, a, x) && Scaled(l, b, y)
    ensures (a < b <==> x < y) && (a > b <==> x > y)
  {
    TimesIsProduct(l.num, a);
    TimesIsProduct(l.num, b);
    ScaleOrder(a, b, l.num as real);
    ScaleOrder(b, a, l.num as real);
  }

  lemma ScaledSum(l: Law, a: real, b: real, x: int, y: int)
    requires Scaled(l, a, x) && Scaled(l, b, y)
    ensures Scaled(l, a + b, x + y)
  {
    var n := l.num as real;
    TimesIsProduct(l.num, a);
    TimesIsProduct(l.num, b);
    TimesIsProduct(l.num, a + b);
    assert n * (a + b) == n * a + n * b;
  }

  lemma ScaledDifference(l: Law, a: real, b: real, x: int, y: int)
    requires Scaled(l, a, x) && Scaled(l, b, y)
    ensures Scaled(l, a - b, x - y)
  {
    var n := l.num as real;
    TimesIsProduct(l.num, a);
    TimesIsProduct(l.num, b);
    TimesIsProduct(l.num, a - b);
    assert n * (a - b) == n * a - n * b;
  }

  lemma ScaledWhole(l: Law, time: nat)
    ensures Scaled(l, time as real, Mul(l.num, time))
  {
    TimesWhole(l.num, time);
  }

  lemma Swapped(time: real, unit: real, d: real, n: real, bytes: real)
    requires d * unit == n && time * unit == bytes
    ensures n * time == d * bytes
  {
    assert n * time == d * (time * unit);
  }

  /** Bytes over bytes per tick, scaled. */
  lemma ScaledQuotient(l: Law, unit: real, bytes: nat, time: real)
    requires Times(l.den, unit) == l.num as real && time * unit == bytes as real
    ensures Scaled(l, time, Mul(l.den, bytes))
  {
    TimesIsProduct(l.den, unit);
    TimesIsProduct(l.num, time);
    MulCast(l.den, bytes);
    Swapped(time, unit, l.den as real, l.num as real, bytes as real);
  }

  lemma ScaledBound(l: Law, c: LB.Shaper)
    requires Shapes(l, c)
    ensures Scaled(l, c.Bound(), Mul(l.den, l.capacity))
  {
    DivideMultiply(c.capacity, c.Unit());
    ScaledQuotient(l, c.Unit(), l.capacity, c.Bound());
  }

  lemma ScaledSerial(l: Law, c: LB.Shaper, p: Pkt)
    requires Shapes(l, c)
    ensures Scaled(l, c.Serial(p), Mul(l.den, p.len + 24))
  {
    LB.SerialIsSize(c, p);
    ScaledQuotient(l, c.Unit(), p.len + 24, c.Serial(p));
  }

  /** The same packets in both forms, and the line is free at the same time. */
  predicate SameTimes(l: Law, t: Timetable, v: Trace<real, Pkt, LB.Departure>) {
    && Scaled(l, v.state, t.free) && |v.kept| == |t.kept|
    && forall i :: 0 <= i < |t.kept| ==> v.kept[i].pkt == t.kept[i]
  }

  lemma ScaledStart(l: Law, nextAt: real, free: nat, p: Pkt)
    requires l.num > 0 && Scaled(l, nextAt, free)
    ensures var due := (p.stamp + l.delay) as real;
            && Scaled(l, Max(due, nextAt), Start(l, free, p))
            && Scaled(l, Max(due, nextAt) - due, Start(l, free, p) - Due(l, p))
  {
    var due := (p.stamp + l.delay) as real;
    ScaledWhole(l, p.stamp + l.delay);
    ScaledOrder(l, due, nextAt, Due(l, p), free);
    ScaledDifference(l, Max(due, nextAt), due, Start(l, free, p), Due(l, p));
  }

  /** One packet in both forms. */
  lemma ScheduleStep(l: Law, c: LB.Shaper, nextAt: real, free: nat, p: Pkt, at: nat)
    requires Shapes(l, c) && Scaled(l, nextAt, free) && at == Start(l, free, p)
    ensures var (s, out) := LB.Virtual(c)(nextAt, p);
            if at - Due(l, p) > Mul(l.den, l.capacity) then out == None && s == nextAt
            else out.Some? && out.value.pkt == At(l, p, at) && Scaled(l, s, at + Mul(l.den, p.len + 24))
  {
    var due := (p.stamp + l.delay) as real;
    var time := Max(due, nextAt);
    LB.VirtualApplied(c, nextAt, p);
    ScaledStart(l, nextAt, free, p);
    ScaledBound(l, c);
    ScaledOrder(l, time - due, c.Bound(), at - Due(l, p), Mul(l.den, l.capacity));
    TimesFloor(l.num, time, at);
    ScaledSerial(l, c, p);
    ScaledSum(l, time, c.Serial(p), at, Mul(l.den, p.len + 24));
  }

  /** The leaky bucket follows exactly the timetable of the law. */
  lemma {:induction false} ShaperKeepsLaw(l: Law, c: LB.Shaper, ps: seq<Pkt>)
    requires Shapes(l, c)
    ensures SameTimes(l, Scheduled(l, ps), Run(LB.Virtual(c), 0.0, ps))
  {
    if ps == [] {
      TimesIsProduct(l.num, 0.0);
    } else {
      var front, p := ps[..|ps| - 1], ps[|ps| - 1];
      ShaperKeepsLaw(l, c, front);
      var t := Scheduled(l, front);
      ScheduleStep(l, c, Run(LB.Virtual(c), 0.0, front).state, t.free, p, Start(l, t.free, p));
    }
  }
}
