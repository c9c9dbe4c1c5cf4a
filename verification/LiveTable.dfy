/**
 The live mode of the packet sniffer (src/moonsniff.cpp): a table of 2^24 slots
 matches the two sightings of a packet.

 A packet goes to the slot of the low 24 bits of its identifier.  A new sighting
 overwrites the slot, and a test empties it, whether it matches or not.  Each
 operation holds the lock of its slot, so operations are atomic; a run is a
 sequence of them.
 */
module LiveTable {
  import opened Integers
  import opened OnlineStats
  import opened Reals
  import opened Sequences

  const SLOTS: nat := 0x100_0000

  /** A first sighting, or the test for one at a second sighting. */
  datatype Op = Add(id: nat, ts: nat) | Test(id: nat, ts: nat)

  datatype Entry = Entry(timestamp: nat, identifier: nat)

  const VACANT := Entry(0, 0)

  function Slot(id: nat): (k: nat)
    ensures k < SLOTS
  {
    id % SLOTS
  }

  /** Two identifiers meet in a slot if and only if they agree modulo 2^24. */
  lemma SlotsMeetIff(a: nat, b: nat)
    ensures Slot(a) == Slot(b) <==> (a - b) % 0x100_0000 == 0
  {
  }

  // ---------------------------------------------------------------- one slot

  /** What an operation leaves in its slot. */
  function Left(op: Op): Entry {
    match op
    case Add(id, ts) => Entry(ts, id)
    case Test(_, _) => VACANT
  }

  /** What a slot holds after the operations. */
  function Content(ops: seq<Op>, slot: nat): Entry {
    if ops == [] then VACANT
    else
      var op := ops[|ops| - 1];
      if Slot(op.id) == slot then Left(op) else Content(ops[..|ops| - 1], slot)
  }

  /** The time stamp a test finds; none if the slot's is zero or someone else's. */
  function Find(e: Entry, id: nat): Option<nat> {
    if e.identifier == id && e.timestamp != 0 then Some(e.timestamp) else None
  }

  function Found(ops: seq<Op>, id: nat): Option<nat> { Find(Content(ops, Slot(id)), id) }

  // ---------------------------------------------------------------- matching

  /** The test at `k` follows the sighting at `a`, and nothing in between used
      their slot. */
  ghost predicate Matches(ops: seq<Op>, a: nat, k: nat) {
    && a < k < |ops|
    && ops[a].Add? && ops[k].Test? && ops[a].id == ops[k].id && ops[a].ts != 0
    && forall i :: a < i < k ==> Slot(ops[i].id) != Slot(ops[k].id)
  }

  /** A slot holds what the last operation on it left. */
  lemma {:induction false} ContentIsLast(ops: seq<Op>, k: nat, slot: nat, a: nat)
    requires a < k <= |ops| && Slot(ops[a].id) == slot
    requires forall i :: a < i < k ==> Slot(ops[i].id) != slot
    ensures Content(ops[..k], slot) == Left(ops[a])
  {
    if a < k - 1 {
      ContentIsLast(ops, k - 1, slot, a);
      assert ops[..k][..k - 1] == ops[..k - 1];
    }
  }

  /** The last operation on a slot, if there is one. */
  lemma {:induction false} LastUse(ops: seq<Op>, k: nat, slot: nat) returns (a: int)
    requires k <= |ops|
    ensures -1 <= a < k
    ensures a >= 0 ==> Slot(ops[a].id) == slot
    ensures forall i :: a < i < k ==> Slot(ops[i].id) != slot
    ensures a < 0 ==> Content(ops[..k], slot) == VACANT
  {
    if k == 0 {
      a := -1;
    } else if Slot(ops[k - 1].id) == slot {
      a := k - 1;
    } else {
      a := LastUse(ops, k - 1, slot);
      assert ops[..k][..k - 1] == ops[..k - 1];
    }
  }

  /** A test finds a time stamp if and only if it matches a sighting, and then it
      finds that sighting's. */
  lemma FoundIffMatches(ops: seq<Op>, k: nat, ts: nat)
    requires k < |ops| && ops[k].Test?
    ensures Found(ops[..k], ops[k].id) == Some(ts) <==> exists a: nat :: Matches(ops, a, k) && ops[a].ts == ts
  {
    var id := ops[k].id;
    var last := LastUse(ops, k, Slot(id));
    if last >= 0 {
      ContentIsLast(ops, k, Slot(id), last);
      if Found(ops[..k], id) == Some(ts) {
        assert Matches(ops, last, k);
      }
    }
    forall a: nat | Matches(ops, a, k) && ops[a].ts == ts ensures Found(ops[..k], id) == Some(ts) {
      ContentIsLast(ops, k, Slot(id), a);
    }
  }

  /** A sighting is matched by at most one test, and a test matches at most one
      sighting. */
  lemma MatchedOnce(ops: seq<Op>, a: nat, k: nat, b: nat, l: nat)
    requires Matches(ops, a, k) && Matches(ops, b, l)
    ensures a == b <==> k == l
  {
  }

  // ---------------------------------------------------------------- the map

  /** What the table stands for: a map from whole identifiers. */
  function MapAfter(ops: seq<Op>): map<nat, nat> {
    if ops == [] then map[]
    else
      var m := MapAfter(ops[..|ops| - 1]);
      match ops[|ops| - 1]
      case Add(id, ts) => m[id := ts]
      case Test(id, _) => m - {id}
  }

  function MapFound(ops: seq<Op>, id: nat): Option<nat> {
    if id in MapAfter(ops) then Some(MapAfter(ops)[id]) else None
  }

  /** Whatever the table finds, the map holds. */
  lemma {:induction false} TableWithinMap(ops: seq<Op>, id: nat)
    ensures Found(ops, id).Some? ==> MapFound(ops, id) == Found(ops, id)
  {
    if ops != [] {
      TableWithinMap(ops[..|ops| - 1], id);
    }
  }

  /** Every test gets the answer the map would give. */
  ghost predicate Agrees(ops: seq<Op>) {
    forall k :: 0 <= k < |ops| && ops[k].Test? ==> Found(ops[..k], ops[k].id) == MapFound(ops[..k], ops[k].id)
  }

  /** Operations on these identifiers, adding these time stamps. */
  predicate Over(ops: seq<Op>, ids: set<nat>, stamps: set<nat>) {
    forall k :: 0 <= k < |ops| ==> ops[k].id in ids && (ops[k].Add? ==> ops[k].ts in stamps)
  }

  predicate Separate(ids: set<nat>) {
    forall a, b :: a in ids && b in ids && a != b ==> Slot(a) != Slot(b)
  }

  lemma {:induction false} SeparateFound(ops: seq<Op>, ids: set<nat>, stamps: set<nat>, id: nat)
    requires Over(ops, ids, stamps) && Separate(ids) && 0 !in stamps && id in ids
    ensures Found(ops, id) == MapFound(ops, id)
  {
    if ops != [] {
      SeparateFound(ops[..|ops| - 1], ids, stamps, id);
    }
  }

  /** Two runs on which table and map differ. */
  lemma ZeroDiffers(id: nat)
    ensures !Agrees([Add(id, 0), Test(id, 0)])
  {
    var ops := [Add(id, 0), Test(id, 0)];
    assert ops[..1] == [Add(id, 0)];
    assert ops[..1][..0] == [];
    assert Found(ops[..1], ops[1].id) == None && MapFound(ops[..1], ops[1].id) == Some(0);
  }

  lemma CollisionDiffers(a: nat, b: nat, ts: nat)
    requires a != b && Slot(a) == Slot(b) && ts != 0
    ensures !Agrees([Add(a, ts), Add(b, ts), Test(a, ts)])
  {
    var ops := [Add(a, ts), Add(b, ts), Test(a, ts)];
    assert ops[..2] == [Add(a, ts), Add(b, ts)];
    assert ops[..2][..1] == [Add(a, ts)];
    assert ops[..2][..1][..0] == [];
    assert MapAfter(ops[..2][..1]) == map[a := ts];
    assert Found(ops[..2], ops[2].id) == None && MapFound(ops[..2], ops[2].id) == Some(ts);
  }

  /** Table and map agree on every run exactly when the identifiers in use
      differ in their low 24 bits and no time stamp is zero. */
  lemma AgreesIff(ids: set<nat>, stamps: set<nat>)
    requires ids != {} && stamps != {}
    ensures (forall ops :: Over(ops, ids, stamps) ==> Agrees(ops)) <==> Separate(ids) && 0 !in stamps
  {
    if Separate(ids) && 0 !in stamps {
      forall ops: seq<Op> | Over(ops, ids, stamps) ensures Agrees(ops) {
        forall k | 0 <= k < |ops| && ops[k].Test?
          ensures Found(ops[..k], ops[k].id) == MapFound(ops[..k], ops[k].id)
        {
          SeparateFound(ops[..k], ids, stamps, ops[k].id);
        }
      }
    } else {
      var ops := Disagreement(ids, stamps);
    }
  }

  lemma Disagreement(ids: set<nat>, stamps: set<nat>) returns (ops: seq<Op>)
    requires ids != {} && stamps != {} && !(Separate(ids) && 0 !in stamps)
    ensures Over(ops, ids, stamps) && !Agrees(ops)
  {
    if 0 in stamps {
      var id :| id in ids;
      ops := [Add(id, 0), Test(id, 0)];
      ZeroDiffers(id);
    } else {
      var a, b :| a in ids && b in ids && a != b && Slot(a) == Slot(b);
      var ts :| ts in stamps;
      ops := [Add(a, ts), Add(b, ts), Test(a, ts)];
      CollisionDiffers(a, b, ts);
    }
  }

  // ---------------------------------------------------------------- statistics

  /** The measured latencies: second sighting less first, for every test that
      finds one.  Negative ones count as well. */
  function Samples(ops: seq<Op>): seq<int> {
    if ops == [] then []
    else
      var front := ops[..|ops| - 1];
      match ops[|ops| - 1]
      case Add(_, _) => Samples(front)
      case Test(id, ts) =>
        match Found(front, id)
        case None => Samples(front)
        case Some(first) => Samples(front) + [ts - first]
  }

  /** A first sighting and the test that matches it. */
  datatype Pair = Pair(first: nat, second: nat)

  /** All matches of a run, in the order of their tests. */
  ghost predicate Lists(ops: seq<Op>, pairs: seq<Pair>) {
    && (forall n :: 0 <= n < |pairs| ==> Matches(ops, pairs[n].first, pairs[n].second))
    && (forall m, n :: 0 <= m < n < |pairs| ==> pairs[m].second < pairs[n].second)
    && (forall a: nat, k: nat :: Matches(ops, a, k) ==> Pair(a, k) in pairs)
  }

  predicate Within(ops: seq<Op>, pairs: seq<Pair>) {
    forall n :: 0 <= n < |pairs| ==> pairs[n].first < |ops| && pairs[n].second < |ops|
  }

  /** From first to second sighting, for each of the pairs. */
  function Latencies(ops: seq<Op>, pairs: seq<Pair>): (xs: seq<int>)
    requires Within(ops, pairs)
    ensures |xs| == |pairs|
    ensures forall n :: 0 <= n < |pairs| ==> xs[n] == ops[pairs[n].second].ts - ops[pairs[n].first].ts
  {
    seq(|pairs|, n requires 0 <= n < |pairs| => ops[pairs[n].second].ts - ops[pairs[n].first].ts)
  }

  function TotalLatency(ops: seq<Op>, pairs: seq<Pair>): int
    requires Within(ops, pairs)
  {
    if pairs == [] then 0
    else
      var p := pairs[|pairs| - 1];
      TotalLatency(ops, pairs[..|pairs| - 1]) + ops[p.second].ts - ops[p.first].ts
  }

  lemma MatchesFront(ops: seq<Op>, front: seq<Op>, a: nat, k: nat)
    requires front <= ops && k < |front|
    ensures Matches(ops, a, k) <==> Matches(front, a, k)
  {
  }

  /** More operations change nothing about pairs of earlier ones. */
  lemma LatenciesFront(ops: seq<Op>, front: seq<Op>, pairs: seq<Pair>)
    requires front <= ops && Within(front, pairs)
    ensures Within(ops, pairs) && Latencies(ops, pairs) == Latencies(front, pairs)
  {
  }

  lemma LatenciesMore(ops: seq<Op>, front: seq<Op>, a: nat, pairs: seq<Pair>, before: seq<Pair>)
    requires front <= ops && a <= |front| < |ops| && Within(front, before)
    requires pairs == before + [Pair(a, |front|)]
    ensures Within(ops, pairs)
    ensures Latencies(ops, pairs) == Latencies(front, before) + [ops[|front|].ts - ops[a].ts]
  {
  }

  /** The last operation matches nothing: the matches are those before it. */
  lemma ListsFront(ops: seq<Op>, front: seq<Op>, pairs: seq<Pair>)
    requires ops != [] && front == ops[..|ops| - 1]
    requires forall a: nat :: !Matches(ops, a, |front|)
    ensures Lists(ops, pairs) <==> Lists(front, pairs)
  {
    forall a: nat, k: nat ensures Matches(ops, a, k) <==> Matches(front, a, k) {
      if k < |front| {
        MatchesFront(ops, front, a, k);
      }
    }
  }

  /** The last operation matches a sighting: this match comes last. */
  lemma ListsLast(ops: seq<Op>, front: seq<Op>, a: nat, pairs: seq<Pair>)
    requires ops != [] && front == ops[..|ops| - 1] && Matches(ops, a, |front|) && Lists(ops, pairs)
    ensures pairs != [] && pairs[|pairs| - 1] == Pair(a, |front|) && Lists(front, pairs[..|pairs| - 1])
  {
    var n :| 0 <= n < |pairs| && pairs[n] == Pair(a, |front|);
    assert Matches(ops, pairs[|pairs| - 1].first, pairs[|pairs| - 1].second);
    assert n == |pairs| - 1;
    forall m | 0 <= m < n ensures Matches(front, pairs[m].first, pairs[m].second) {
      MatchesFront(ops, front, pairs[m].first, pairs[m].second);
    }
    forall b: nat, k: nat | Matches(front, b, k) ensures Pair(b, k) in pairs[..n] {
      MatchesFront(ops, front, b, k);
    }
  }

  lemma ListsMore(ops: seq<Op>, front: seq<Op>, a: nat, pairs: seq<Pair>)
    requires ops != [] && front == ops[..|ops| - 1] && Matches(ops, a, |front|) && Lists(front, pairs)
    ensures Lists(ops, pairs + [Pair(a, |front|)])
  {
    var all := pairs + [Pair(a, |front|)];
    forall n | 0 <= n < |all| ensures Matches(ops, all[n].first, all[n].second) {
      if n < |pairs| {
        assert Matches(front, pairs[n].first, pairs[n].second);
        MatchesFront(ops, front, pairs[n].first, pairs[n].second);
      }
    }
    forall b: nat, k: nat | Matches(ops, b, k) ensures Pair(b, k) in all {
      if k < |front| {
        MatchesFront(ops, front, b, k);
        assert Pair(b, k) in pairs;
      } else {
        MatchedOnce(ops, a, |front|, b, k);
        assert all[|pairs|] == Pair(b, k);
      }
    }
  }

  /** What the last operation adds to the samples. */
  lemma SamplesStep(ops: seq<Op>, front: seq<Op>) returns (a: Option<nat>)
    requires ops != [] && front == ops[..|ops| - 1]
    ensures match a
            case None => (forall b: nat :: !Matches(ops, b, |front|)) && Samples(ops) == Samples(front)
            case Some(b) =>
              Matches(ops, b, |front|) && Samples(ops) == Samples(front) + [ops[|front|].ts - ops[b].ts]
  {
    a := None;
    if ops[|front|].Test? {
      var found := Found(front, ops[|front|].id);
      if found.Some? {
        FoundIffMatches(ops, |front|, found.value);
        var b: nat :| Matches(ops, b, |front|) && ops[b].ts == found.value;
        a := Some(b);
      } else {
        forall b: nat ensures !Matches(ops, b, |front|) {
          if Matches(ops, b, |front|) {
            FoundIffMatches(ops, |front|, ops[b].ts);
          }
        }
      }
    }
  }

  /** The last operation added the match behind `before`, if there is one. */
  predicate Peeled(ops: seq<Op>, front: seq<Op>, pairs: seq<Pair>, before: seq<Pair>, a: Option<nat>) {
    && front <= ops && |front| < |ops|
    && match a
       case None => pairs == before && Samples(ops) == Samples(front)
       case Some(b) =>
         && b <= |front| && pairs == before + [Pair(b, |front|)]
         && Samples(ops) == Samples(front) + [ops[|front|].ts - ops[b].ts]
  }

  lemma Peel(ops: seq<Op>, front: seq<Op>, pairs: seq<Pair>) returns (before: seq<Pair>, a: Option<nat>)
    requires ops != [] && front == ops[..|ops| - 1] && Lists(ops, pairs)
    ensures Lists(front, before) && Peeled(ops, front, pairs, before, a)
  {
    a := SamplesStep(ops, front);
    match a {
      case None =>
        before := pairs;
        ListsFront(ops, front, pairs);
      case Some(b) =>
        ListsLast(ops, front, b, pairs);
        before := pairs[..|pairs| - 1];
    }
  }

  lemma PeeledLatencies(ops: seq<Op>, front: seq<Op>, pairs: seq<Pair>, before: seq<Pair>, a: Option<nat>)
    requires Peeled(ops, front, pairs, before, a) && Within(front, before) && Samples(front) == Latencies(front, before)
    ensures Within(ops, pairs) && Samples(ops) == Latencies(ops, pairs)
  {
    match a {
      case None => LatenciesFront(ops, front, pairs);
      case Some(b) => LatenciesMore(ops, front, b, pairs, before);
    }
  }

  lemma NoPairs(pairs: seq<Pair>)
    requires Lists([], pairs)
    ensures pairs == []
  {
    assert pairs != [] ==> Matches([], pairs[0].first, pairs[0].second);
  }

  /** The samples are the latencies of the matches, in the order of the tests:
      those and no others, however the matches are found. */
  lemma {:induction false} SamplesAreLatencies(ops: seq<Op>, pairs: seq<Pair>)
    requires Lists(ops, pairs)
    ensures Within(ops, pairs) && Samples(ops) == Latencies(ops, pairs)
  {
    if ops == [] {
      NoPairs(pairs);
    } else {
      var front := ops[..|ops| - 1];
      var before, a := Peel(ops, front, pairs);
      SamplesAreLatencies(front, before);
      PeeledLatencies(ops, front, pairs, before, a);
    }
  }

  /** The matches of a run can be listed. */
  lemma {:induction false} MatchesListed(ops: seq<Op>) returns (pairs: seq<Pair>)
    ensures Lists(ops, pairs)
  {
    pairs := [];
    if ops != [] {
      var front := ops[..|ops| - 1];
      pairs := MatchesListed(front);
      var a := SamplesStep(ops, front);
      match a {
        case None => ListsFront(ops, front, pairs);
        case Some(b) =>
          ListsMore(ops, front, b, pairs);
          pairs := pairs + [Pair(b, |front|)];
      }
    }
  }

  lemma {:induction false} LatenciesSum(ops: seq<Op>, pairs: seq<Pair>)
    requires Within(ops, pairs)
    ensures SumOf(Latencies(ops, pairs), Value()) == TotalLatency(ops, pairs) as real
  {
    if pairs != [] {
      var front := pairs[..|pairs| - 1];
      LatenciesSum(ops, front);
      assert Latencies(ops, pairs)[..|front|] == Latencies(ops, front);
    }
  }

  function Tests(ops: seq<Op>): nat {
    if ops == [] then 0
    else Tests(ops[..|ops| - 1]) + if ops[|ops| - 1].Test? then 1 else 0
  }

  // ---------------------------------------------------------------- the code

  /** Conversion of the code, which discards the fraction. */
  function Whole(x: real): int { if x >= 0.0 then x.Floor else -((-x).Floor) }

  lemma {:induction false} TimesNegated(n: nat, x: real)
    ensures Times(n, -x) == -Times(n, x)
  {
    if n > 0 {
      TimesNegated(n - 1, x);
    }
  }

  lemma WholeDivide(s: int, n: nat, x: real)
    requires n > 0 && Times(n, x) == s as real
    ensures Whole(x) == Truncated(s, n)
  {
    TimesWhole(n, 0);
    MulIsProduct(n, 0);
    if s >= 0 {
      TimesFloor(n, x, s);
      if x < 0.0 {
        TimesStrict(n, x, 0.0);
      }
    } else {
      TimesNegated(n, x);
      TimesFloor(n, -x, -s);
      if x >= 0.0 {
        TimesOrderValues(n, 0.0, x);
      }
    }
  }

  lemma {:induction false} TimesOrderValues(n: nat, x: real, y: real)
    requires x <= y
    ensures Times(n, x) <= Times(n, y)
  {
    if n > 0 {
      TimesOrderValues(n - 1, x, y);
    }
  }

  /** What is reported of a run: the mean of the latencies of all matches,
      rounded towards zero, and their sample variance. */
  predicate Figures(ops: seq<Op>, pairs: seq<Pair>, average: int, variance: real)
    requires Within(ops, pairs)
  {
    && (|pairs| == 0 ==> average == 0)
    && (|pairs| == 1 ==> average == ops[pairs[0].second].ts - ops[pairs[0].first].ts)
    && (|pairs| >= 1 ==> average == Truncated(TotalLatency(ops, pairs), |pairs|))
    && (|pairs| >= 2 ==>
          var mean := TotalLatency(ops, pairs) as real / |pairs| as real;
          variance == Deviations(Latencies(ops, pairs), mean) / (|pairs| - 1) as real)
  }

  lemma FiguresOf(ops: seq<Op>, pairs: seq<Pair>, before: real)
    requires Within(ops, pairs)
    ensures var s := MomentsOf(Latencies(ops, pairs));
            s.count == |pairs| && Figures(ops, pairs, Whole(s.mean), Variance(s, before))
  {
    LatenciesSum(ops, pairs);
    AverageOf(Latencies(ops, pairs), TotalLatency(ops, pairs), before);
    if |pairs| == 1 {
      assert pairs[..0] == [];
    }
  }

  lemma Reports(ops: seq<Op>, s: Moments, before: real, average: int, variance: real) returns (pairs: seq<Pair>)
    requires s == MomentsOf(Samples(ops)) && average == Whole(s.mean) && variance == Variance(s, before)
    ensures Lists(ops, pairs) && Within(ops, pairs) && |pairs| == s.count
    ensures Figures(ops, pairs, average, variance)
  {
    pairs := MatchesListed(ops);
    SamplesAreLatencies(ops, pairs);
    FiguresOf(ops, pairs, before);
  }

  lemma AverageOf(xs: seq<int>, total: int, before: real)
    requires SumOf(xs, Value()) == total as real
    ensures MomentsOf(xs).count == |xs|
    ensures |xs| == 0 ==> Whole(MomentsOf(xs).mean) == 0
    ensures |xs| >= 1 ==> Whole(MomentsOf(xs).mean) == Truncated(total, |xs|)
    ensures |xs| >= 2 ==>
              Variance(MomentsOf(xs), before) == Deviations(xs, total as real / |xs| as real) / (|xs| - 1) as real
  {
    MomentsExact(xs);
    if |xs| >= 1 {
      TimesIsProduct(|xs|, MomentsOf(xs).mean);
      WholeDivide(total, |xs|, MomentsOf(xs).mean);
    }
    if |xs| >= 2 {
      SampleVariance(xs, before);
    }
  }

  class Sniffer {
    const hitList: array<Entry>
    var count: nat
    var m2: real
    var mean: real
    var variance: real
    var hits: nat
    var misses: nat
    /** Every operation so far. */
    ghost var ops: seq<Op>

    ghost predicate Valid()
      reads this, hitList
    {
      && hitList.Length == SLOTS
      && (forall slot :: 0 <= slot < SLOTS ==> hitList[slot] == Content(ops, slot))
      && Moments(count, mean, m2) == MomentsOf(Samples(ops))
      && hits == |Samples(ops)| && hits + misses == Tests(ops)
    }

    constructor ()
      ensures Valid() && fresh(hitList) && ops == [] && variance == 0.0
    {
      hitList := new Entry[SLOTS](_ => VACANT);
      count, m2, mean, variance := 0, 0.0, 0.0, 0.0;
      hits, misses := 0, 0;
      ops := [];
    }

    method AddEntry(identification: nat, timestamp: nat)
      requires Valid()
      modifies this, hitList
      ensures Valid() && ops == old(ops) + [Add(identification, timestamp)] && variance == old(variance)
    {
      var index := identification % SLOTS;
      hitList[index] := Entry(timestamp, identification);
      assert (ops + [Add(identification, timestamp)])[..|ops|] == ops;
      ops := ops + [Add(identification, timestamp)];
    }

    /** Looks a packet up and empties its slot. */
    method Take(identification: nat) returns (oldTs: nat)
      requires Valid()
      modifies hitList
      ensures hitList[Slot(identification)] == VACANT
      ensures forall slot :: 0 <= slot < SLOTS && slot != Slot(identification) ==> hitList[slot] == Content(ops, slot)
      ensures Found(ops, identification) == if oldTs != 0 then Some(oldTs) else None
    {
      var index := identification % SLOTS;
      oldTs := if hitList[index].identifier == identification then hitList[index].timestamp else 0;
      hitList[index] := VACANT;
    }

    method TestFor(identification: nat, timestamp: nat)
      requires Valid()
      modifies this, hitList
      ensures Valid() && ops == old(ops) + [Test(identification, timestamp)] && variance == old(variance)
    {
      var oldTs := Take(identification);
      if oldTs != 0 {
        hits := hits + 1;
        var diff := timestamp - oldTs;
        Measure(diff);
        assert (Samples(ops) + [diff])[..|Samples(ops)|] == Samples(ops);
      } else {
        misses := misses + 1;
      }
      assert (ops + [Test(identification, timestamp)])[..|ops|] == ops;
      ops := ops + [Test(identification, timestamp)];
    }

    method Measure(diff: int)
      modifies this`count, this`mean, this`m2
      ensures Moments(count, mean, m2) == Updated(old(Moments(count, mean, m2)), diff as real)
    {
      count := count + 1;
      var delta := diff as real - mean;
      mean := mean + delta / count as real;
      var delta2 := diff as real - mean;
      m2 := m2 + delta * delta2;
    }

    /** Brings the variance up to date, and rounds. */
    method Finalize() returns (averageLatency: int, varianceLatency: int)
      requires Valid()
      modifies this`variance
      ensures Valid() && variance == Variance(MomentsOf(Samples(ops)), old(variance))
      ensures averageLatency == Whole(MomentsOf(Samples(ops)).mean) && varianceLatency == Whole(variance)
    {
      if count >= 2 {
        variance := m2 / (count - 1) as real;
      }
      averageLatency := Whole(mean);
      varianceLatency := Whole(variance);
    }

    /** `pairs` are the matches so far. */
    method FetchStats() returns (averageLatency: int, varianceLatency: int, ghost pairs: seq<Pair>)
      requires Valid()
      modifies this`variance
      ensures Valid() && Lists(ops, pairs) && Within(ops, pairs)
      ensures Figures(ops, pairs, averageLatency, variance)
      ensures |pairs| < 2 ==> variance == old(variance)
      ensures varianceLatency == Whole(variance)
    {
      averageLatency, varianceLatency := Finalize();
      pairs := Reports(ops, MomentsOf(Samples(ops)), old(variance), averageLatency, variance);
    }
  }
}
