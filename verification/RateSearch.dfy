/**
 The search for the throughput of a device (rfc2544/utils/utils.lua,
 rfc2544/benchmarks/throughput.lua), as section 26.1 of RFC 2544 asks for it.

 Rates are whole numbers.  A trial at a rate either is valid, that is, it loses
 few enough packets, or it is not.
 */
module RateSearch {
  import opened Integers

  /** One trial of the device under test. */
  datatype Trial = Trial(rate: int, valid: bool)

  /** Half of an integer, rounded up. */
  function CeilHalf(x: int): int { (x + 1) / 2 }

  /** The search between two trials: its limits, the rate to try, and whether it
      is over. */
  datatype Progress = Progress(lower: int, upper: int, rate: int, finished: bool)

  /** What a trial does to the search: a pass at the upper limit ends it, any
      other trial moves a limit, and the search ends when the rate would hardly
      change. */
  function Moved(threshold: int, s: Progress, valid: bool): Progress {
    if valid && s.rate == s.upper then s.(finished := true)
    else
      var lower := if valid then s.rate else s.lower;
      var upper := if valid then s.upper else s.rate;
      var middle := CeilHalf(lower + upper);
      if Abs(middle - s.rate) < threshold then Progress(lower, upper, s.rate, true)
      else Progress(lower, upper, middle, false)
  }

  class BinarySearch {
    var lowerLimit: int
    var upperLimit: int

    constructor (lower: int, upper: int)
      ensures lowerLimit == lower && upperLimit == upper
    {
      lowerLimit, upperLimit := lower, upper;
    }

    method Init(lower: int, upper: int)
      modifies this
      ensures lowerLimit == lower && upperLimit == upper
    {
      lowerLimit, upperLimit := lower, upper;
    }

    /** The next rate to try, or the current one if the search is over.  The
        code's test whether the lower limit failed compares with a variable that
        is never set, so a failure at the lower limit does not end the search. */
    method Next(curr: int, top: bool, threshold: int) returns (nextVal: int, finished: bool)
      modifies this
      ensures Progress(lowerLimit, upperLimit, nextVal, finished)
              == Moved(threshold, Progress(old(lowerLimit), old(upperLimit), curr, false), top)
    {
      if top {
        if curr == upperLimit {
          return curr, true;
        } else {
          lowerLimit := curr;
        }
      } else {
        upperLimit := curr;
      }
      var middle := (lowerLimit + upperLimit + 1) / 2;
      if Abs(middle - curr) < threshold {
        return curr, true;
      }
      return middle, false;
    }
  }

  /** The rate of the last valid trial, or 0. */
  function LastValid(trials: seq<Trial>): int {
    if trials == [] then 0
    else
      var t := trials[|trials| - 1];
      if t.valid then t.rate else LastValid(trials[..|trials| - 1])
  }

  predicate Failed(trials: seq<Trial>, rate: int) { Trial(rate, false) in trials }

  /** The trials record what the device answered. */
  predicate Answers(dut: (nat, int) -> bool, trials: seq<Trial>) {
    forall k :: 0 <= k < |trials| ==> trials[k].valid == dut(k, trials[k].rate)
  }

  lemma AnswersMore(dut: (nat, int) -> bool, trials: seq<Trial>, rate: int)
    requires Answers(dut, trials)
    ensures Answers(dut, trials + [Trial(rate, dut(|trials|, rate))])
  {
  }

  /** A rate just above the result has failed. */
  predicate Bracketed(threshold: nat, trials: seq<Trial>, result: int) {
    exists h :: Failed(trials, h) && result <= h < result + 2 * threshold
  }

  /** `threshold * 2^k`, as repeated doubling. */
  function Widest(threshold: nat, k: nat): nat {
    if k == 0 then threshold else 2 * Widest(threshold, k - 1)
  }

  lemma {:induction false} WidestIsPower(threshold: nat, k: nat)
    ensures Widest(threshold, k) == threshold * Pow2(k)
  {
    if k > 0 {
      WidestIsPower(threshold, k - 1);
      Doubled(threshold, Pow2(k - 1));
    }
  }

  /** How often the maximum can be halved before it is down to the threshold. */
  function Halvings(max: nat, threshold: nat): (k: nat)
    requires threshold >= 1
    ensures max <= Widest(threshold, k)
    ensures k > 0 ==> Widest(threshold, k - 1) < max
  {
    if max <= threshold then 0 else 1 + Halvings(CeilHalf(max), threshold)
  }

  lemma {:induction false} WidestGrows(threshold: nat, a: nat, b: nat)
    requires a <= b
    ensures Widest(threshold, a) <= Widest(threshold, b)
  {
    if a < b {
      WidestGrows(threshold, a, b - 1);
    }
  }

  /** It is the logarithm to base two of the maximum over the threshold, rounded
      up. */
  lemma HalvingsIff(max: nat, threshold: nat, k: nat)
    requires threshold >= 1
    ensures Halvings(max, threshold) <= k <==> max <= threshold * Pow2(k)
  {
    WidestIsPower(threshold, k);
    var n := Halvings(max, threshold);
    if n <= k {
      WidestGrows(threshold, n, k);
    } else {
      WidestGrows(threshold, k, n - 1);
    }
  }

  /** Trials after which the search may go on: one more with the least threshold,
      for which the upper limit may be tried again. */
  function MostTrials(max: nat, threshold: nat): nat
    requires threshold >= 1
  {
    Halvings(max, threshold) + if threshold == 1 then 1 else 0
  }

  /** What the search promises whatever the device answers. */
  ghost predicate Found(max: nat, threshold: nat, dut: (nat, int) -> bool, trials: seq<Trial>, result: int)
    requires max >= 1 && threshold >= 1
  {
    // the search is short
    && 1 <= |trials| <= MostTrials(max, threshold) + 1
    // it reports what the device answered
    && Answers(dut, trials)
    && result == LastValid(trials)
    // and it stops only at the maximum or below a failure
    && (result == max || Bracketed(threshold, trials, result))
  }

  /** State of the search between two trials, after the first.  The upper limit
      itself is tried again only next to a valid rate, with the least threshold. */
  predicate Searching(max: nat, threshold: nat, trials: seq<Trial>, lower: int, upper: int, rate: int)
    requires max >= 1 && threshold >= 1
  {
    && 0 <= lower < upper <= max
    && rate == CeilHalf(lower + upper)
    && (rate == upper ==> threshold == 1 && 1 <= lower)
    && lower == LastValid(trials)
    && Failed(trials, upper)
    && 1 <= |trials| <= MostTrials(max, threshold)
    && upper - lower <= Widest(threshold, Halvings(max, threshold) + 1 - |trials|)
  }

  lemma LastOfMore(before: seq<Trial>, t: Trial)
    ensures LastValid(before + [t]) == if t.valid then t.rate else LastValid(before)
  {
    assert (before + [t])[..|before|] == before;
  }

  lemma OneMore(before: seq<Trial>, t: Trial)
    ensures LastValid(before + [t]) == if t.valid then t.rate else LastValid(before)
    ensures forall h :: Failed(before, h) ==> Failed(before + [t], h)
    ensures t in before + [t]
  {
    LastOfMore(before, t);
    assert (before + [t])[|before|] == t;
  }

  /** State of the search before a trial. */
  predicate Ready(max: nat, threshold: nat, trials: seq<Trial>, lower: int, upper: int, rate: int)
    requires max >= 1 && threshold >= 1
  {
    if trials == [] then lower == 0 && rate == upper == max
    else Searching(max, threshold, trials, lower, upper, rate)
  }

  /** State of the search after its last trial. */
  predicate Done(max: nat, threshold: nat, trials: seq<Trial>)
    requires max >= 1 && threshold >= 1
  {
    && 1 <= |trials| <= MostTrials(max, threshold) + 1
    && (LastValid(trials) == max || Bracketed(threshold, trials, LastValid(trials)))
  }

  /** The limits that a trial sets. */
  predicate Sets(lower: int, upper: int, rate: int, valid: bool, lower': int, upper': int) {
    lower' == (if valid then rate else lower) && upper' == (if valid then upper else rate)
  }

  lemma BracketedBy(threshold: nat, trials: seq<Trial>, result: int, h: int)
    requires Failed(trials, h) && result <= h < result + 2 * threshold
    ensures Bracketed(threshold, trials, result)
  {
  }

  /** A valid trial at the upper limit ends the search. */
  lemma StopsAtTop(max: nat, threshold: nat, before: seq<Trial>, lower: int, rate: int)
    requires max >= 1 && threshold >= 1 && Ready(max, threshold, before, lower, rate, rate)
    ensures Done(max, threshold, before + [Trial(rate, true)])
  {
    OneMore(before, Trial(rate, true));
    if before != [] {
      BracketedBy(threshold, before + [Trial(rate, true)], rate, rate);
    }
  }

  /** Any other trial ends the search if the next rate would be close by. */
  lemma StopsWhenClose(max: nat, threshold: nat, before: seq<Trial>, lower: int, upper: int, rate: int,
                       valid: bool, lower': int, upper': int)
    requires max >= 1 && threshold >= 1 && Ready(max, threshold, before, lower, upper, rate)
    requires !(valid && rate == upper) && Sets(lower, upper, rate, valid, lower', upper')
    requires Abs(CeilHalf(lower' + upper') - rate) < threshold
    ensures Done(max, threshold, before + [Trial(rate, valid)])
  {
    OneMore(before, Trial(rate, valid));
    BracketedBy(threshold, before + [Trial(rate, valid)], lower', upper');
  }

  lemma Halved(threshold: nat, k: nat, width: int)
    requires k >= 1 && width <= Widest(threshold, k)
    ensures CeilHalf(width) <= Widest(threshold, k - 1)
  {
  }

  /** Otherwise it halves the interval. */
  lemma Narrows(max: nat, threshold: nat, before: seq<Trial>, lower: int, upper: int, rate: int,
                valid: bool, lower': int, upper': int)
    requires max >= 1 && threshold >= 1 && Ready(max, threshold, before, lower, upper, rate)
    requires !(valid && rate == upper) && Sets(lower, upper, rate, valid, lower', upper')
    requires Abs(CeilHalf(lower' + upper') - rate) >= threshold
    ensures Searching(max, threshold, before + [Trial(rate, valid)], lower', upper', CeilHalf(lower' + upper'))
  {
    OneMore(before, Trial(rate, valid));
    var k := Halvings(max, threshold);
    assert Widest(threshold, 0) == threshold;
    if before != [] && |before| <= k {
      Halved(threshold, k + 1 - |before|, upper - lower);
    }
  }

  /** The number of trials that may still follow. */
  lemma ReadyBound(max: nat, threshold: nat, trials: seq<Trial>, lower: int, upper: int, rate: int)
    requires max >= 1 && threshold >= 1 && Ready(max, threshold, trials, lower, upper, rate)
    ensures |trials| <= MostTrials(max, threshold)
  {
  }

  /** What one trial achieves. */
  lemma TrialStep(max: nat, threshold: nat, before: seq<Trial>, lower: int, upper: int, rate: int, valid: bool,
                  lower': int, upper': int, rate': int, finished: bool)
    requires max >= 1 && threshold >= 1 && Ready(max, threshold, before, lower, upper, rate)
    requires if valid && rate == upper then finished
             else
               && Sets(lower, upper, rate, valid, lower', upper')
               && finished == (Abs(CeilHalf(lower' + upper') - rate) < threshold)
               && (!finished ==> rate' == CeilHalf(lower' + upper'))
    ensures var trials := before + [Trial(rate, valid)];
            if finished then Done(max, threshold, trials) else Ready(max, threshold, trials, lower', upper', rate')
  {
    if valid && rate == upper {
      StopsAtTop(max, threshold, before, lower, rate);
    } else if finished {
      StopsWhenClose(max, threshold, before, lower, upper, rate, valid, lower', upper');
    } else {
      Narrows(max, threshold, before, lower, upper, rate, valid, lower', upper');
    }
  }

  // ---------------------------------------------------------------- runs

  /** The search after some trials; only their answers matter. */
  function After(max: nat, threshold: nat, trials: seq<Trial>): Progress {
    if trials == [] then Progress(0, max, max, false)
    else Moved(threshold, After(max, threshold, trials[..|trials| - 1]), trials[|trials| - 1].valid)
  }

  /** The trials are those that the search makes, given their answers. */
  predicate Performed(max: nat, threshold: nat, trials: seq<Trial>) {
    trials != [] ==>
      var front := trials[..|trials| - 1];
      var s := After(max, threshold, front);
      Performed(max, threshold, front) && !s.finished && trials[|trials| - 1].rate == s.rate
  }

  lemma OneMoreTrial(max: nat, threshold: nat, before: seq<Trial>, t: Trial)
    requires Performed(max, threshold, before)
    requires !After(max, threshold, before).finished && t.rate == After(max, threshold, before).rate
    ensures Performed(max, threshold, before + [t])
    ensures After(max, threshold, before + [t]) == Moved(threshold, After(max, threshold, before), t.valid)
  {
    assert (before + [t])[..|before|] == before;
  }

  /** Whatever the answers, a run is in a state that the lemmas above describe. */
  lemma {:induction false} RunReady(max: nat, threshold: nat, trials: seq<Trial>)
    requires max >= 1 && threshold >= 1 && Performed(max, threshold, trials)
    ensures var s := After(max, threshold, trials);
            if s.finished then Done(max, threshold, trials)
            else Ready(max, threshold, trials, s.lower, s.upper, s.rate)
  {
    if trials != [] {
      var front, t := trials[..|trials| - 1], trials[|trials| - 1];
      RunReady(max, threshold, front);
      MovedReady(max, threshold, front, After(max, threshold, front), t, trials);
    }
  }

  lemma MovedReady(max: nat, threshold: nat, front: seq<Trial>, s: Progress, t: Trial, trials: seq<Trial>)
    requires max >= 1 && threshold >= 1 && Ready(max, threshold, front, s.lower, s.upper, s.rate)
    requires t.rate == s.rate && trials == front + [t]
    ensures var s1 := Moved(threshold, s, t.valid);
            if s1.finished then Done(max, threshold, trials)
            else Ready(max, threshold, trials, s1.lower, s1.upper, s1.rate)
  {
    var s1 := Moved(threshold, s, t.valid);
    assert t == Trial(s.rate, t.valid);
    TrialStep(max, threshold, front, s.lower, s.upper, s.rate, t.valid, s1.lower, s1.upper, s1.rate, s1.finished);
  }

  /** The search of one iteration of the benchmark.  `dut` is the device: its
      answer may depend on the rate and on the number of the trial. */
  method Search(maxLinkRate: nat, threshold: nat, dut: (nat, int) -> bool) returns (trials: seq<Trial>, result: int)
    requires maxLinkRate >= 1 && threshold >= 1
    ensures Performed(maxLinkRate, threshold, trials) && After(maxLinkRate, threshold, trials).finished
    ensures Found(maxLinkRate, threshold, dut, trials, result)
  {
    var binSearch := new BinarySearch(0, maxLinkRate);
    var rate := maxLinkRate;
    var finished := false;
    trials, result := [], 0;
    while !finished
      invariant fresh(binSearch)
      invariant Performed(maxLinkRate, threshold, trials) && Answers(dut, trials) && result == LastValid(trials)
      invariant After(maxLinkRate, threshold, trials)
                == Progress(binSearch.lowerLimit, binSearch.upperLimit, rate, finished)
      decreases !finished, MostTrials(maxLinkRate, threshold) + 1 - |trials|
    {
      RunReady(maxLinkRate, threshold, trials);
      ReadyBound(maxLinkRate, threshold, trials, binSearch.lowerLimit, binSearch.upperLimit, rate);
      var valid := dut(|trials|, rate);
      OneMoreTrial(maxLinkRate, threshold, trials, Trial(rate, valid));
      LastOfMore(trials, Trial(rate, valid));
      AnswersMore(dut, trials, rate);
      if valid {
        result := rate;
      }
      trials := trials + [Trial(rate, valid)];
      rate, finished := binSearch.Next(rate, valid, threshold);
    }
    RunReady(maxLinkRate, threshold, trials);
  }

  /** The answers determine the search. */
  lemma {:induction false} SameTrials(
      max: nat, threshold: nat, dut: (nat, int) -> bool, a: seq<Trial>, b: seq<Trial>)
    requires Performed(max, threshold, a) && Answers(dut, a)
    requires Performed(max, threshold, b) && Answers(dut, b) && |a| <= |b|
    ensures a <= b
  {
    if |a| < |b| {
      SameTrials(max, threshold, dut, a, b[..|b| - 1]);
    } else if a != [] {
      var n := |a| - 1;
      SameTrials(max, threshold, dut, a[..n], b[..n]);
      assert a[..n] == b[..n];
      assert a[n] == Trial(After(max, threshold, a[..n]).rate, dut(n, a[n].rate));
      assert b[n] == Trial(After(max, threshold, b[..n]).rate, dut(n, b[n].rate));
      assert a == a[..n] + [a[n]] && b == b[..n] + [b[n]];
    }
  }

  lemma {:induction false} PrefixGoesOn(max: nat, threshold: nat, a: seq<Trial>, b: seq<Trial>)
    requires Performed(max, threshold, b) && a <= b && a != b
    ensures !After(max, threshold, a).finished
  {
    var front := b[..|b| - 1];
    if |a| < |front| {
      PrefixGoesOn(max, threshold, a, front);
    } else {
      assert a == front;
    }
  }

  lemma Determined(max: nat, threshold: nat, dut: (nat, int) -> bool, a: seq<Trial>, b: seq<Trial>)
    requires Performed(max, threshold, a) && Answers(dut, a) && After(max, threshold, a).finished
    requires Performed(max, threshold, b) && Answers(dut, b) && After(max, threshold, b).finished
    ensures a == b
  {
    if |a| <= |b| {
      SameTrials(max, threshold, dut, a, b);
      if a != b {
        PrefixGoesOn(max, threshold, a, b);
      }
    } else {
      SameTrials(max, threshold, dut, b, a);
      PrefixGoesOn(max, threshold, b, a);
    }
  }

  // ---------------------------------------------------------------- the upper limit

  /** The rate reaches the upper limit in the first trial, at the maximum, or
      when a rate that has failed is tried again. */
  lemma TopOrRetried(max: nat, threshold: nat, before: seq<Trial>, lower: int, rate: int)
    requires max >= 1 && threshold >= 1 && Ready(max, threshold, before, lower, rate, rate)
    ensures before == [] && rate == max <==> !Failed(before, rate)
  {
  }

  /** A device whose answers depend on the rate alone can pass at the upper limit
      only if that is the maximum. */
  lemma PassAtTopIsMaximum(
      max: nat, threshold: nat, dut: (nat, int) -> bool, before: seq<Trial>, lower: int, rate: int)
    requires max >= 1 && threshold >= 1
    requires Ready(max, threshold, before, lower, rate, rate) && Answers(dut, before)
    requires forall j: nat, k: nat :: dut(j, rate) == dut(k, rate)
    ensures dut(|before|, rate) ==> before == [] && rate == max
  {
    if before != [] {
      var k :| 0 <= k < |before| && before[k] == Trial(rate, false);
      assert dut(k, rate) == dut(|before|, rate);
    }
  }

  /** The last trial of a run passed at the upper limit. */
  predicate PassedAtTop(max: nat, threshold: nat, trials: seq<Trial>) {
    && Performed(max, threshold, trials) && trials != []
    && trials[|trials| - 1] == Trial(After(max, threshold, trials[..|trials| - 1]).upper, true)
  }

  /** Whatever the answers, a pass at the upper limit is a pass at the maximum if
      the threshold is at least two or the maximum at most two. */
  lemma PassedAtMaximum(max: nat, threshold: nat, trials: seq<Trial>)
    requires max >= 1 && threshold >= 1 && (threshold >= 2 || max <= 2) && PassedAtTop(max, threshold, trials)
    ensures trials[|trials| - 1].rate == max
  {
    RunReady(max, threshold, trials[..|trials| - 1]);
  }

  /** The rate after a number of failures in a row. */
  function Fallen(rate: nat, n: nat): nat {
    if n == 0 then rate else CeilHalf(Fallen(rate, n - 1))
  }

  lemma {:induction false} FallenOnce(rate: nat, n: nat)
    ensures Fallen(rate, n + 1) == Fallen(CeilHalf(rate), n)
  {
    if n > 0 {
      FallenOnce(rate, n - 1);
    }
  }

  /** The failures it takes before the rate is two. */
  function Falls(rate: nat): (n: nat)
    requires rate >= 2
    ensures Fallen(rate, n) == 2
    ensures forall k: nat :: k <= n ==> Fallen(rate, k) >= 2
  {
    if rate == 2 then FallsStay(rate, 0); 0
    else
      var n := Falls(CeilHalf(rate)) + 1;
      FallenOnce(rate, n - 1);
      FallsStay(rate, n);
      n
  }

  /** Halving a rate below two never leads back to two. */
  lemma {:induction false} FallsStay(rate: nat, n: nat)
    requires Fallen(rate, n) >= 2
    ensures forall k: nat :: k <= n ==> Fallen(rate, k) >= 2
  {
    if n > 0 {
      FallsStay(rate, n - 1);
    }
  }

  /** The first trials at a device that fails all of them. */
  function Failures(max: nat, n: nat): (trials: seq<Trial>)
    ensures |trials| == n && forall k :: 0 <= k < n ==> !trials[k].valid
  {
    if n == 0 then [] else Failures(max, n - 1) + [Trial(Fallen(max, n - 1), false)]
  }

  lemma {:induction false} FailuresPerformed(max: nat, n: nat)
    requires n > 0 ==> Fallen(max, n - 1) >= 2
    ensures Performed(max, 1, Failures(max, n))
    ensures After(max, 1, Failures(max, n))
            == Progress(0, if n == 0 then max else Fallen(max, n - 1), Fallen(max, n), false)
  {
    if n > 0 {
      FallsStay(max, n - 1);
      FailuresPerformed(max, n - 1);
      OneMoreTrial(max, 1, Failures(max, n - 1), Trial(Fallen(max, n - 1), false));
    }
  }

  /** A device that fails down to rate two and passes from then on. */
  function Retried(max: nat): seq<Trial>
    requires max >= 3
  {
    Failures(max, Falls(max) + 1) + [Trial(1, true)] + [Trial(2, true)]
  }

  /** It is tried at two again, passes, and the search ends there. */
  lemma RetriedPerformed(max: nat)
    requires max >= 3
    ensures PassedAtTop(max, 1, Retried(max)) && After(max, 1, Retried(max)).finished
    ensures LastValid(Retried(max)) == 2
  {
    var fails := Failures(max, Falls(max) + 1);
    var low := fails + [Trial(1, true)];
    FailuresPerformed(max, Falls(max) + 1);
    assert After(max, 1, fails) == Progress(0, 2, 1, false);
    OneMoreTrial(max, 1, fails, Trial(1, true));
    assert After(max, 1, low) == Progress(1, 2, 2, false);
    OneMoreTrial(max, 1, low, Trial(2, true));
    assert (low + [Trial(2, true)])[..|low|] == low;
    LastOfMore(low, Trial(2, true));
  }

  /** So these parameters are exactly those for which no answers lead to a pass
      at the upper limit below the maximum. */
  lemma TopIsMaximumIff(max: nat, threshold: nat)
    requires max >= 1 && threshold >= 1
    ensures (forall trials: seq<Trial> :: PassedAtTop(max, threshold, trials) ==> trials[|trials| - 1].rate == max)
            <==> threshold >= 2 || max <= 2
  {
    if threshold >= 2 || max <= 2 {
      forall trials: seq<Trial> | PassedAtTop(max, threshold, trials) ensures trials[|trials| - 1].rate == max {
        PassedAtMaximum(max, threshold, trials);
      }
    } else {
      RetriedPerformed(max);
      assert PassedAtTop(max, threshold, Retried(max));
    }
  }

  /** The search itself does it, for every maximum from three on: against a device
      that needs some trials to settle, it ends at two, a rate that had failed. */
  method RetriedBelowMaximum(max: nat) returns (trials: seq<Trial>, result: int)
    requires max >= 3
    ensures result == 2 && trials == Retried(max) && PassedAtTop(max, 1, trials) && Failed(trials, 2)
  {
    var n := Falls(max);
    var dut := (k: nat, rate: int) => k > n;
    trials, result := Search(max, 1, dut);
    RetriedPerformed(max);
    Determined(max, 1, dut, trials, Retried(max));
    assert trials[n] == Failures(max, n + 1)[n] == Trial(2, false);
  }

  // ---------------------------------------------------------------- accuracy

  /** A device that passes exactly the rates up to its capacity. */
  ghost predicate PassesUpTo(dut: (nat, int) -> bool, capacity: real) {
    forall k: nat, rate: int :: dut(k, rate) <==> rate as real <= capacity
  }

  lemma {:induction false} LastValidPassed(dut: (nat, int) -> bool, capacity: real, trials: seq<Trial>)
    requires PassesUpTo(dut, capacity) && 0.0 <= capacity
    requires Answers(dut, trials)
    ensures LastValid(trials) as real <= capacity
  {
    if trials != [] && !trials[|trials| - 1].valid {
      LastValidPassed(dut, capacity, trials[..|trials| - 1]);
    }
  }

  /** Accuracy: the result is a rate the device passes, and it is the maximum or
      misses the device's capacity by less than two thresholds, less one. */
  lemma SearchAccuracy(
      max: nat, threshold: nat, dut: (nat, int) -> bool, trials: seq<Trial>, result: int, capacity: real)
    requires max >= 1 && threshold >= 1 && Found(max, threshold, dut, trials, result)
    requires PassesUpTo(dut, capacity) && 0.0 <= capacity
    ensures result as real <= capacity
    ensures result == max || capacity < (result + 2 * threshold - 1) as real
  {
    LastValidPassed(dut, capacity, trials);
    if result != max {
      var h :| Failed(trials, h) && result <= h < result + 2 * threshold;
      var k :| 0 <= k < |trials| && trials[k] == Trial(h, false);
      assert !dut(k, h);
    }
  }
}
