/**
 Running mean and variance, and the latency histogram (src/histogram.cpp).
 The live mode of the packet sniffer uses the same update.

 Doubles are reals.  Counters are unbounded.
 */
module OnlineStats {
  import opened Integers

  /** Number, mean and sum of squared deviations of the samples so far. */
  datatype Moments = Moments(count: nat, mean: real, m2: real)

  const NO_SAMPLES := Moments(0, 0.0, 0.0)

  function NextMean(count: nat, mean: real, x: real): real {
    mean + (x - mean) / (count + 1) as real
  }

  /** The update of the code, for one more sample. */
  function Updated(s: Moments, x: real): Moments {
    var mean := NextMean(s.count, s.mean, x);
    Moments(s.count + 1, mean, s.m2 + (x - s.mean) * (x - mean))
  }

  function MomentsOf(xs: seq<int>): Moments {
    if xs == [] then NO_SAMPLES else Updated(MomentsOf(xs[..|xs| - 1]), xs[|xs| - 1] as real)
  }

  // ---------------------------------------------------------------- definitions

  /** Sum of a function of the samples. */
  function SumOf(xs: seq<int>, f: int -> real): real {
    if xs == [] then 0.0 else SumOf(xs[..|xs| - 1], f) + f(xs[|xs| - 1])
  }

  function Value(): int -> real { (x: int) => x as real }

  function SquaredDistance(from: real): int -> real {
    (x: int) => (x as real - from) * (x as real - from)
  }

  /** Sum of the squared distances of the samples from a value. */
  function Deviations(xs: seq<int>, from: real): real { SumOf(xs, SquaredDistance(from)) }

  // ---------------------------------------------------------------- exactness

  lemma SumOfSnoc(xs: seq<int>, f: int -> real, v: int)
    ensures SumOf(xs + [v], f) == SumOf(xs, f) + f(v)
  {
    assert (xs + [v])[..|xs|] == xs;
  }

  lemma {:induction false} SumOfAdd(xs: seq<int>, f: int -> real, g: int -> real, h: int -> real)
    requires forall x :: f(x) == g(x) + h(x)
    ensures SumOf(xs, f) == SumOf(xs, g) + SumOf(xs, h)
  {
    if xs != [] {
      SumOfAdd(xs[..|xs| - 1], f, g, h);
    }
  }

  lemma LinearStep(k: real, s: real, x: real, n: real, c: real)
    ensures k * (s + x) + (n + 1.0) * c == (k * s + n * c) + (k * x + c)
  {
  }

  lemma {:induction false} SumOfLinear(xs: seq<int>, f: int -> real, k: real, c: real)
    requires forall x: int :: f(x) == k * x as real + c
    ensures SumOf(xs, f) == k * SumOf(xs, Value()) + |xs| as real * c
  {
    if xs != [] {
      var front := xs[..|xs| - 1];
      SumOfLinear(front, f, k, c);
      assert |xs| as real == |front| as real + 1.0;
      LinearStep(k, SumOf(front, Value()), xs[|xs| - 1] as real, |front| as real, c);
    }
  }

  lemma {:induction false} SumOfShifted(xs: seq<int>, f: int -> real, g: int -> real, h: int -> real, k: real, c: real)
    requires forall x :: f(x) == g(x) + h(x)
    requires forall x: int :: h(x) == k * x as real + c
    ensures SumOf(xs, f) == SumOf(xs, g) + (k * SumOf(xs, Value()) + |xs| as real * c)
  {
    SumOfAdd(xs, f, g, h);
    SumOfLinear(xs, h, k, c);
  }

  function Square(): int -> real { (x: int) => x as real * x as real }

  function Line(k: real, c: real): int -> real { (x: int) => k * x as real + c }

  lemma SquareExpands(x: real, a: real)
    ensures (x - a) * (x - a) == x * x + (-2.0 * a * x + a * a)
  {
  }

  lemma DistanceExpands(a: real, x: int)
    ensures SquaredDistance(a)(x) == Square()(x) + Line(-2.0 * a, a * a)(x)
  {
    SquareExpands(x as real, a);
  }

  lemma DeviationsExpand(xs: seq<int>, a: real, k: real, c: real)
    requires k == -2.0 * a && c == a * a
    ensures Deviations(xs, a) == SumOf(xs, Square()) + (k * SumOf(xs, Value()) + |xs| as real * c)
  {
    forall x: int ensures SquaredDistance(a)(x) == Square()(x) + Line(k, c)(x) {
      DistanceExpands(a, x);
    }
    SumOfShifted(xs, SquaredDistance(a), Square(), Line(k, c), k, c);
  }

  lemma Regroup(n: real, a: real, s: real, c: real)
    requires n * a == s && c == a * a
    ensures n * c == s * a
  {
    assert n * (a * a) == n * a * a;
  }

  lemma Twice(a: real, s: real, k: real)
    requires k == -2.0 * a
    ensures k * s == -2.0 * (s * a)
  {
  }

  lemma AroundMean(n: real, s: real, a: real, k: real, c: real)
    requires n * a == s && k == -2.0 * a && c == a * a
    ensures k * s + n * c == -(s * a)
  {
    Regroup(n, a, s, c);
    Twice(a, s, k);
  }

  /** Around the mean, deviations come from the sums alone. */
  lemma DeviationsAroundMean(xs: seq<int>, mean: real)
    requires |xs| as real * mean == SumOf(xs, Value())
    ensures Deviations(xs, mean) == SumOf(xs, Square()) - SumOf(xs, Value()) * mean
  {
    DeviationsWith(xs, mean, |xs| as real, SumOf(xs, Value()), -2.0 * mean, mean * mean);
  }

  lemma DeviationsWith(xs: seq<int>, mean: real, n: real, s: real, k: real, c: real)
    requires n == |xs| as real && s == SumOf(xs, Value()) && n * mean == s
    requires k == -2.0 * mean && c == mean * mean
    ensures Deviations(xs, mean) == SumOf(xs, Square()) - s * mean
  {
    DeviationsExpand(xs, mean, k, c);
    AroundMean(n, s, mean, k, c);
  }

  lemma Share(delta: real, n: real)
    requires n > 0.0
    ensures delta == n * (delta / n)
  {
  }

  lemma MeanStep(n: real, n1: real, mean: real, e: real, x: real)
    requires n1 == n + 1.0 && x - mean == n1 * e
    ensures n1 * (mean + e) == n * mean + x
    ensures x - (mean + e) == n * e
  {
  }

  /** The new mean, and its distance from the sample. */
  lemma NextMeanExact(n: real, n1: real, mean: real, x: real, next: real)
    requires n1 == n + 1.0 && n1 > 0.0 && next == mean + (x - mean) / n1
    ensures n1 * next == n * mean + x
    ensures x - next == n * (next - mean)
  {
    var e := (x - mean) / n1;
    Share(x - mean, n1);
    MeanStep(n, n1, mean, e, x);
  }

  lemma CrossTerms(n: real, s: real, mean: real, x: real, next: real)
    requires n * mean == s && x - next == n * (next - mean)
    ensures s * next - s * mean == mean * (x - next)
  {
    var d := next - mean;
    assert s * d == mean * (n * d);
    assert s * next - s * mean == s * d;
  }

  lemma ProductExpands(x: real, mean: real, next: real)
    ensures (x - mean) * (x - next) == x * x - x * next - mean * (x - next)
  {
  }

  /** The update of the second moment, over sums. */
  lemma SecondMoment(n: real, s: real, q: real, mean: real, x: real, next: real,
                     before: real, m2: real, s1: real, q1: real)
    requires n * mean == s && x - next == n * (next - mean)
    requires before == q - s * mean && m2 == before + (x - mean) * (x - next)
    requires s1 == s + x && q1 == q + x * x
    ensures m2 == q1 - s1 * next
  {
    CrossTerms(n, s, mean, x, next);
    ProductExpands(x, mean, next);
    assert s1 * next == s * next + x * next;
  }

  /** The moments agree with the number of samples, their sum and the sum of
      their squares. */
  predicate Balanced(n: real, sum: real, squares: real, mean: real, m2: real) {
    n * mean == sum && m2 == squares - sum * mean
  }

  /** The moments, over sums. */
  predicate OverSums(xs: seq<int>, s: Moments) {
    s.count == |xs| && Balanced(|xs| as real, SumOf(xs, Value()), SumOf(xs, Square()), s.mean, s.m2)
  }

  /** An update keeps the moments balanced, whatever the sums. */
  lemma BalancedUpdate(n: real, sum: real, squares: real, mean: real, before: real, x: real,
                       n1: real, sum1: real, squares1: real, next: real, m2: real)
    requires Balanced(n, sum, squares, mean, before) && n1 > 0.0
    requires n1 == n + 1.0 && sum1 == sum + x && squares1 == squares + x * x
    requires next == mean + (x - mean) / n1 && m2 == before + (x - mean) * (x - next)
    ensures Balanced(n1, sum1, squares1, next, m2)
  {
    NextMeanExact(n, n1, mean, x, next);
    SecondMoment(n, sum, squares, mean, x, next, before, m2, sum1, squares1);
  }

  lemma SumsMore(xs: seq<int>, v: int)
    ensures SumOf(xs + [v], Value()) == SumOf(xs, Value()) + v as real
    ensures SumOf(xs + [v], Square()) == SumOf(xs, Square()) + v as real * v as real
  {
    SumOfSnoc(xs, Value(), v);
    SumOfSnoc(xs, Square(), v);
  }

  lemma UpdateOverSums(xs: seq<int>, s: Moments, v: int)
    requires OverSums(xs, s)
    ensures OverSums(xs + [v], Updated(s, v as real))
  {
    SumsMore(xs, v);
    UpdatedBalanced(|xs| as real, SumOf(xs, Value()), SumOf(xs, Square()), s, v as real,
                    SumOf(xs + [v], Value()), SumOf(xs + [v], Square()));
    assert |xs + [v]| == s.count + 1;
  }

  lemma UpdatedBalanced(n: real, sum: real, squares: real, s: Moments, x: real, sum1: real, squares1: real)
    requires Balanced(n, sum, squares, s.mean, s.m2) && n == s.count as real
    requires sum1 == sum + x && squares1 == squares + x * x
    ensures Balanced((s.count + 1) as real, sum1, squares1, Updated(s, x).mean, Updated(s, x).m2)
  {
    BalancedUpdate(n, sum, squares, s.mean, s.m2, x, (s.count + 1) as real, sum1, squares1,
                   Updated(s, x).mean, Updated(s, x).m2);
  }

  lemma {:induction false} MomentsOverSums(xs: seq<int>)
    ensures OverSums(xs, MomentsOf(xs))
  {
    if xs != [] {
      var front := xs[..|xs| - 1];
      MomentsOverSums(front);
      UpdateOverSums(front, MomentsOf(front), xs[|xs| - 1]);
      assert front + [xs[|xs| - 1]] == xs;
    }
  }

  /** The mean is that of the samples, and the second moment is the sum of
      their squared deviations from it. */
  predicate Exact(xs: seq<int>, s: Moments) {
    && s.count == |xs|
    && |xs| as real * s.mean == SumOf(xs, Value())
    && s.m2 == Deviations(xs, s.mean)
  }

  lemma OverSumsExact(xs: seq<int>, s: Moments)
    requires OverSums(xs, s)
    ensures Exact(xs, s)
  {
    DeviationsAroundMean(xs, s.mean);
  }

  /** Exactness, after any samples. */
  lemma MomentsExact(xs: seq<int>)
    ensures Exact(xs, MomentsOf(xs))
  {
    MomentsOverSums(xs);
    OverSumsExact(xs, MomentsOf(xs));
  }

  /** The finalized variance, kept from before while there are too few samples. */
  function Variance(s: Moments, before: real): real {
    if s.count < 2 then before else s.m2 / (s.count - 1) as real
  }

  lemma ExactVariance(xs: seq<int>, s: Moments, before: real)
    requires |xs| >= 2 && Exact(xs, s)
    ensures s.mean == SumOf(xs, Value()) / |xs| as real
    ensures Variance(s, before) == Deviations(xs, s.mean) / (|xs| - 1) as real
  {
    MeanIsQuotient(s.mean, |xs| as real, SumOf(xs, Value()));
  }

  /** Finalizing yields the sample variance: the sum of the squared deviations
      from the samples' mean, over one less than their number. */
  lemma SampleVariance(xs: seq<int>, before: real)
    requires |xs| >= 2
    ensures var mean := SumOf(xs, Value()) / |xs| as real;
            && MomentsOf(xs).mean == mean
            && Variance(MomentsOf(xs), before) == Deviations(xs, mean) / (|xs| - 1) as real
  {
    MomentsExact(xs);
    ExactVariance(xs, MomentsOf(xs), before);
  }

  lemma MeanIsQuotient(mean: real, n: real, s: real)
    requires n > 0.0 && n * mean == s
    ensures mean == s / n
  {
  }

  // ---------------------------------------------------------------- buckets

  /** Division of the code, which rounds towards zero. */
  function Truncated(a: int, b: int): int
    requires b > 0
  {
    if a >= 0 then a / b else -(-a / b)
  }

  /** The bucket of a sample: the sample, moved away from zero by half a bucket,
      rounded towards zero to a multiple of the bucket size. */
  function Bucket(size: nat, v: int): int
    requires size > 0
  {
    var half := size / 2;
    var moved := if v > 0 then v + half else if v < 0 then v - half else v;
    Truncated(moved, size) * size
  }

  /** Buckets are symmetric about zero. */
  lemma BucketSymmetric(size: nat, v: int)
    requires size > 0
    ensures Bucket(size, -v) == -Bucket(size, v)
  {
  }

  lemma BucketWithinHalf(size: nat, v: nat)
    requires size > 0
    ensures 2 * Abs(Bucket(size, v) - v) <= size
    ensures 2 * (v - Bucket(size, v)) < size
  {
    var moved := if v > 0 then v + size / 2 else v;
    assert moved == moved / size * size + moved % size;
  }

  lemma AtLeastOnce(d: nat, size: nat)
    requires d >= 1
    ensures d * size >= size
  {
  }

  lemma MulDifference(k: int, q: int, size: nat)
    ensures k * size - q * size == (k - q) * size
  {
  }

  lemma Apart(q: int, k: int, size: nat)
    requires q != k
    ensures Abs(k * size - q * size) >= size
  {
    if k > q {
      MulDifference(k, q, size);
      AtLeastOnce(k - q, size);
    } else {
      MulDifference(q, k, size);
      AtLeastOnce(q - k, size);
    }
  }

  /** The bucket is a multiple of the bucket size, and no multiple is nearer to
      the sample; of two that are equally near, it is the one further from zero. */
  lemma BucketNearest(size: nat, v: int, k: int) returns (q: int)
    requires size > 0
    ensures Bucket(size, v) == q * size
    ensures Abs(q * size - v) <= Abs(k * size - v)
    ensures q != k && Abs(q * size - v) == Abs(k * size - v) ==> Abs(k * size - v) == Abs(q * size) - Abs(v)
  {
    if v >= 0 {
      BucketWithinHalf(size, v);
    } else {
      BucketWithinHalf(size, -v);
      BucketSymmetric(size, v);
    }
    var half := size / 2;
    q := Truncated(if v > 0 then v + half else if v < 0 then v - half else v, size);
    if q != k {
      Apart(q, k, size);
    }
  }

  function Buckets(size: nat, xs: seq<int>): seq<int>
    requires size > 0
  {
    if xs == [] then [] else Buckets(size, xs[..|xs| - 1]) + [Bucket(size, xs[|xs| - 1])]
  }

  /** The counters count each bucket's samples. */
  ghost predicate Tallies(storage: map<int, nat>, bs: seq<int>) {
    && (forall b :: b in storage <==> b in bs)
    && (forall b :: b in storage ==> storage[b] == multiset(bs)[b])
  }

  function Incremented(storage: map<int, nat>, b: int): map<int, nat> {
    storage[b := (if b in storage then storage[b] else 0) + 1]
  }

  lemma TallyOne(storage: map<int, nat>, bs: seq<int>, b: int)
    requires Tallies(storage, bs)
    ensures Tallies(Incremented(storage, b), bs + [b])
  {
    assert b !in storage ==> multiset(bs)[b] == 0;
  }

  // ---------------------------------------------------------------- the class

  class Histogram {
    var count: nat
    var m2: real
    var mean: real
    var variance: real
    const bucketSize: int
    const bucketHalf: int
    var storage: map<int, nat>
    /** Every sample so far. */
    ghost var samples: seq<int>

    constructor (size: nat)
      requires size > 0
      ensures Valid() && samples == [] && bucketSize == size && variance == 0.0
    {
      bucketSize, bucketHalf := size, size / 2;
      count, m2, mean, variance := 0, 0.0, 0.0, 0.0;
      storage := map[];
      samples := [];
    }

    ghost predicate Valid()
      reads this
    {
      && bucketSize > 0 && bucketHalf == bucketSize / 2
      && Moments(count, mean, m2) == MomentsOf(samples)
      && Tallies(storage, Buckets(bucketSize, samples))
    }

    method Update(newVal: int) returns (ret: bool)
      requires Valid()
      modifies this
      ensures Valid() && samples == old(samples) + [newVal] && variance == old(variance)
      ensures ret <==> newVal >= 0
    {
      ret := true;
      if newVal < 0 {
        ret := false;
      }
      UpdateMoments(newVal);
      UpdateStorage(newVal);
      assert (samples + [newVal])[..|samples|] == samples;
      samples := samples + [newVal];
    }

    method UpdateMoments(newVal: int)
      modifies this`count, this`mean, this`m2
      ensures Moments(count, mean, m2) == Updated(old(Moments(count, mean, m2)), newVal as real)
    {
      count := count + 1;
      var delta := newVal as real - mean;
      mean := mean + delta / count as real;
      var delta2 := newVal as real - mean;
      m2 := m2 + delta * delta2;
    }

    method UpdateStorage(newVal: int)
      requires bucketSize > 0 && bucketHalf == bucketSize / 2
      requires Tallies(storage, Buckets(bucketSize, samples))
      modifies this`storage
      ensures Tallies(storage, Buckets(bucketSize, samples) + [Bucket(bucketSize, newVal)])
    {
      var val := FindBucket(newVal);
      TallyOne(storage, Buckets(bucketSize, samples), val);
      storage := Incremented(storage, val);
    }

    method FindBucket(newVal: int) returns (val: int)
      requires bucketSize > 0 && bucketHalf == bucketSize / 2
      ensures val == Bucket(bucketSize, newVal)
    {
      val := newVal;
      if val > 0 {
        val := val + bucketHalf;
      } else if val < 0 {
        val := val - bucketHalf;
      }
      val := Truncated(val, bucketSize) * bucketSize;
    }

    method Finalize()
      requires Valid()
      modifies this`variance
      ensures Valid()
      ensures variance == Variance(MomentsOf(samples), old(variance))
    {
      if count >= 2 {
        variance := m2 / (count - 1) as real;
      }
    }
  }
}
