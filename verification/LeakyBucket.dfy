/**
 Leaky-bucket shapers of the path emulator (src/moonem.cpp, src/moonem_sw.cpp).

 The code schedules virtually: it remembers when the line will next be free.
 The model of what it means is a queue of bytes that drains at the target rate.

 Times and queue contents are reals; a stamp is a time rounded down.
 */
module LeakyBucket {
  import opened Reals
  import opened Sequences
  import opened Stages

  /** Target rate in bits per clock tick, size of the queue in bytes, and the
      delay every packet gets in any case. */
  datatype Shaper = Shaper(rate: real, capacity: real, delay: nat) {
    predicate Valid() { rate > 0.0 }

    /** Bytes the line takes per clock tick. */
    function Unit(): (u: real)
      requires Valid()
      ensures u > 0.0
    {
      rate / 8.0
    }

    /** The longest wait that is accepted. */
    function Bound(): real
      requires Valid()
    {
      capacity / Unit()
    }

    /** Time a packet occupies the line. */
    function Serial(p: Pkt): real
      requires Valid()
    {
      p.Size() as real * 8.0 / rate
    }
  }

  /** A packet on its way: `due` is when it could leave at the earliest and `at`
      when it does.  Only the stamp, `at` rounded down, is stored in the packet. */
  datatype Departure = Departure(pkt: Pkt, due: nat, at: real)

  function Depart(p: Pkt, due: nat, at: real): (d: Departure)
    requires at >= 0.0
  {
    Departure(p.(stamp := at.Floor), due, at)
  }

  /** Virtual scheduling; the state is the time at which the line is free. */
  function Virtual(c: Shaper): (real, Pkt) -> (real, Option<Departure>)
    requires c.Valid()
  {
    (nextAt: real, p: Pkt) =>
      var due := p.stamp + c.delay;
      var at := Max(due as real, nextAt);
      if at - due as real > c.Bound() then (nextAt, None)
      else (at + c.Serial(p), Some(Depart(p, due, at)))
  }

  /** The queue: bytes waiting when the last packet arrived, and when that was. */
  datatype Queue = Queue(content: real, at: nat)

  /** Bytes still waiting at a later time. */
  function Drained(c: Shaper, q: Queue, t: nat): (r: real)
    requires c.Valid()
    ensures r >= 0.0
  {
    Max(0.0, q.content - (t - q.at) as real * c.Unit())
  }

  /** A queue that drains at the target rate, takes a packet if and only if no
      more than its capacity is waiting, and sends it when that is gone. */
  function Fluid(c: Shaper): (Queue, Pkt) -> (Queue, Option<Departure>)
    requires c.Valid()
  {
    (q: Queue, p: Pkt) =>
      var due := p.stamp + c.delay;
      var waiting := Drained(c, q, due);
      if waiting > c.capacity then (Queue(waiting, due), None)
      else
        DivideNonNegative(waiting, c.Unit());
        (Queue(waiting + p.Size() as real, due), Some(Depart(p, due, due as real + waiting / c.Unit())))
  }

  // ---------------------------------------------------------------- refinement

  /** The queue holds what the line takes until it is free. */
  predicate Tracks(c: Shaper, nextAt: real, q: Queue)
    requires c.Valid()
  {
    q.content == Max(0.0, nextAt - q.at as real) * c.Unit()
  }

  lemma MulSplit(a: real, b: real, u: real)
    ensures (a - b) * u == a * u - b * u && (a + b) * u == a * u + b * u
  {
  }

  /** Draining and waiting agree. */
  lemma DrainTracks(c: Shaper, nextAt: real, q: Queue, t: nat)
    requires c.Valid() && Tracks(c, nextAt, q) && q.at <= t
    ensures Drained(c, q, t) == Max(0.0, nextAt - t as real) * c.Unit()
  {
    var ahead := nextAt - q.at as real;
    var gone := (t - q.at) as real;
    assert nextAt - t as real == ahead - gone;
    DrainLine(ahead, gone, c.Unit(), q.content);
  }

  lemma MaxScaled(x: real, u: real)
    requires u > 0.0
    ensures Max(0.0, x) * u == Max(0.0, x * u)
  {
    if x > 0.0 {
      MulStrict(0.0, x, u);
    } else {
      MulOrder(x, 0.0, u);
    }
  }

  lemma DrainLine(ahead: real, gone: real, u: real, content: real)
    requires u > 0.0 && gone >= 0.0 && content == Max(0.0, ahead) * u
    ensures Max(0.0, content - gone * u) == Max(0.0, ahead - gone) * u
  {
    MaxScaled(ahead, u);
    MaxScaled(ahead - gone, u);
    MulSplit(ahead, gone, u);
    MulOrder(0.0, gone, u);
  }

  /** Comparing times with the bound is comparing bytes with the capacity. */
  lemma BoundIsCapacity(c: Shaper, wait: real)
    requires c.Valid()
    ensures wait > c.Bound() <==> wait * c.Unit() > c.capacity
    ensures wait * c.Unit() / c.Unit() == wait
  {
    var u := c.Unit();
    DivideMultiply(c.capacity, u);
    if wait > c.Bound() {
      MulStrict(c.Bound(), wait, u);
    } else {
      MulOrder(wait, c.Bound(), u);
    }
  }

  lemma SerialIsSize(c: Shaper, p: Pkt)
    requires c.Valid()
    ensures c.Serial(p) * c.Unit() == p.Size() as real && c.Serial(p) >= 0.0
  {
    var s := p.Size() as real * 8.0;
    DivideMultiply(s, c.rate);
    DivideNonNegative(s, c.rate);
    assert c.Serial(p) * c.Unit() == s / c.rate * c.rate / 8.0;
  }

  /** The wait in time is the wait in bytes. */
  lemma WaitRefines(c: Shaper, nextAt: real, q: Queue, due: nat)
    requires c.Valid() && Tracks(c, nextAt, q) && q.at <= due
    ensures var waiting := Drained(c, q, due);
            var at := Max(due as real, nextAt);
            && (at - due as real > c.Bound() <==> waiting > c.capacity)
            && due as real + waiting / c.Unit() == at
            && Tracks(c, nextAt, Queue(waiting, due))
  {
    var wait := Max(0.0, nextAt - due as real);
    DrainTracks(c, nextAt, q, due);
    BoundIsCapacity(c, wait);
    assert Max(due as real, nextAt) - due as real == wait;
  }

  lemma ServeRefines(c: Shaper, nextAt: real, waiting: real, p: Pkt, due: nat)
    requires c.Valid() && Tracks(c, nextAt, Queue(waiting, due))
    ensures Tracks(c, Max(due as real, nextAt) + c.Serial(p), Queue(waiting + p.Size() as real, due))
  {
    var wait := Max(0.0, nextAt - due as real);
    SerialIsSize(c, p);
    ServeTracks(c, wait, c.Serial(p), waiting, p.Size() as real, due, Max(due as real, nextAt) + c.Serial(p));
  }

  lemma ServeTracks(c: Shaper, wait: real, serial: real, waiting: real, size: real, due: nat, nextAt: real)
    requires c.Valid() && waiting == wait * c.Unit() && size == serial * c.Unit()
    requires wait >= 0.0 && serial >= 0.0 && nextAt - due as real == wait + serial
    ensures Tracks(c, nextAt, Queue(waiting + size, due))
  {
    MulSplit(wait, serial, c.Unit());
    assert Max(0.0, nextAt - due as real) == wait + serial;
  }

  /** One packet: both decide alike, send alike, and stay in step. */
  lemma StepRefines(c: Shaper, nextAt: real, q: Queue, p: Pkt)
    requires c.Valid() && Tracks(c, nextAt, q) && q.at <= p.stamp + c.delay
    ensures var (nextAt', out) := Virtual(c)(nextAt, p);
            var (q', out') := Fluid(c)(q, p);
            out == out' && Tracks(c, nextAt', q') && q'.at == p.stamp + c.delay
  {
    var due := p.stamp + c.delay;
    WaitRefines(c, nextAt, q, due);
    ServeRefines(c, nextAt, Drained(c, q, due), p, due);
  }

  /** For packets in order of arrival, virtual scheduling is the queue. */
  lemma {:induction false} VirtualIsFluid(c: Shaper, ps: seq<Pkt>)
    requires c.Valid() && Sorted(ps)
    ensures var v := Run(Virtual(c), 0.0, ps);
            var f := Run(Fluid(c), Queue(0.0, 0), ps);
            && v.kept == f.kept && v.dropped == f.dropped
            && Tracks(c, v.state, f.state)
            && f.state.at == if ps == [] then 0 else ps[|ps| - 1].stamp + c.delay
  {
    if ps != [] {
      var front := ps[..|ps| - 1];
      VirtualIsFluid(c, front);
      StepRefines(c, Run(Virtual(c), 0.0, front).state, Run(Fluid(c), Queue(0.0, 0), front).state, ps[|ps| - 1]);
    }
  }

  // ---------------------------------------------------------------- output

  /** Time a stretch of packets occupies the line. */
  function Serials(c: Shaper, ds: seq<Departure>): real
    requires c.Valid()
  {
    if ds == [] then 0.0 else Serials(c, ds[..|ds| - 1]) + c.Serial(ds[|ds| - 1].pkt)
  }

  lemma SerialsSnoc(c: Shaper, ds: seq<Departure>, d: Departure)
    requires c.Valid()
    ensures Serials(c, ds + [d]) == Serials(c, ds) + c.Serial(d.pkt)
  {
    assert (ds + [d])[..|ds|] == ds;
  }

  /** The wait is within bounds and the stamp is the departure rounded down. */
  predicate Prompt(c: Shaper, d: Departure)
    requires c.Valid()
  {
    0.0 <= d.at - d.due as real <= c.Bound() && d.pkt.stamp == d.at.Floor
  }

  predicate AllPrompt(c: Shaper, ds: seq<Departure>)
    requires c.Valid()
  {
    forall i :: 0 <= i < |ds| ==> Prompt(c, ds[i])
  }

  /** The line is free only after everything that left has passed. */
  predicate FreeAfter(c: Shaper, ds: seq<Departure>, t: real)
    requires c.Valid()
  {
    forall i :: 0 <= i < |ds| ==> ds[i].at + Serials(c, ds[i..]) <= t
  }

  /** A packet leaves only after the ones before it have passed. */
  predicate Spaced(c: Shaper, ds: seq<Departure>)
    requires c.Valid()
  {
    forall j :: 0 <= j < |ds| ==> FreeAfter(c, ds[..j], ds[j].at)
  }

  lemma FreeAfterSnoc(c: Shaper, ds: seq<Departure>, d: Departure, t: real)
    requires c.Valid() && FreeAfter(c, ds, t) && t <= d.at
    ensures FreeAfter(c, ds + [d], d.at + c.Serial(d.pkt))
  {
    forall i | 0 <= i < |ds + [d]|
      ensures (ds + [d])[i].at + Serials(c, (ds + [d])[i..]) <= d.at + c.Serial(d.pkt)
    {
      assert (ds + [d])[i..] == ds[i..] + [d];
      SerialsSnoc(c, ds[i..], d);
    }
  }

  lemma SpacedSnoc(c: Shaper, ds: seq<Departure>, d: Departure)
    requires c.Valid() && Spaced(c, ds) && FreeAfter(c, ds, d.at)
    ensures Spaced(c, ds + [d])
  {
    forall j | 0 <= j < |ds + [d]| ensures FreeAfter(c, (ds + [d])[..j], (ds + [d])[j].at) {
      assert (ds + [d])[..j] == ds[..j];
    }
    assert ds[..|ds|] == ds;
  }

  lemma VirtualApplied(c: Shaper, nextAt: real, p: Pkt)
    requires c.Valid()
    ensures var due := p.stamp + c.delay;
            var at := Max(due as real, nextAt);
            Virtual(c)(nextAt, p) ==
            if at - due as real > c.Bound() then (nextAt, None)
            else (at + c.Serial(p), Some(Departure(p.(stamp := at.Floor), due, at)))
  {
  }

  /** What one packet does to the schedule. */
  lemma VirtualStep(c: Shaper, nextAt: real, p: Pkt)
    requires c.Valid()
    ensures var (s, out) := Virtual(c)(nextAt, p);
            match out
            case None => s == nextAt
            case Some(d) =>
              && Prompt(c, d)
              && d.at == Max(d.due as real, nextAt)
              && s == d.at + c.Serial(d.pkt)
  {
    VirtualApplied(c, nextAt, p);
    var at := Max((p.stamp + c.delay) as real, nextAt);
    assert c.Serial(p.(stamp := at.Floor)) == c.Serial(p);
  }

  lemma {:induction false} RunSpaced(c: Shaper, ps: seq<Pkt>)
    requires c.Valid()
    ensures var t := Run(Virtual(c), 0.0, ps);
            AllPrompt(c, t.kept) && Spaced(c, t.kept) && FreeAfter(c, t.kept, t.state)
  {
    if ps != [] {
      var front := ps[..|ps| - 1];
      RunSpaced(c, front);
      var t := Run(Virtual(c), 0.0, front);
      VirtualStep(c, t.state, ps[|ps| - 1]);
      var (s, out) := Virtual(c)(t.state, ps[|ps| - 1]);
      if out.Some? {
        SpacedStep(c, t.kept, t.state, out.value);
      }
    }
  }

  lemma SpacedStep(c: Shaper, ds: seq<Departure>, nextAt: real, d: Departure)
    requires c.Valid() && AllPrompt(c, ds) && Spaced(c, ds) && FreeAfter(c, ds, nextAt)
    requires Prompt(c, d) && nextAt <= d.at
    ensures AllPrompt(c, ds + [d]) && Spaced(c, ds + [d])
    ensures FreeAfter(c, ds + [d], d.at + c.Serial(d.pkt))
  {
    SpacedSnoc(c, ds, d);
    FreeAfterSnoc(c, ds, d, nextAt);
  }

  lemma {:induction false} SerialsNonNegative(c: Shaper, ds: seq<Departure>)
    requires c.Valid()
    ensures Serials(c, ds) >= 0.0
  {
    if ds != [] {
      SerialsNonNegative(c, ds[..|ds| - 1]);
      SerialIsSize(c, ds[|ds| - 1].pkt);
    }
  }

  /** Output spacing, for any arrivals: between two accepted packets lies at
      least the time of those from the first on, stamps never go back, and no
      packet waits longer than the bound. */
  lemma OutputSpacing(c: Shaper, ps: seq<Pkt>, i: nat, j: nat)
    requires c.Valid() && i <= j < |Run(Virtual(c), 0.0, ps).kept|
    ensures var ds := Run(Virtual(c), 0.0, ps).kept;
            && ds[i].at + Serials(c, ds[i..j]) <= ds[j].at
            && ds[i].pkt.stamp <= ds[j].pkt.stamp
            && 0.0 <= ds[j].at - ds[j].due as real <= c.Bound()
  {
    var ds := Run(Virtual(c), 0.0, ps).kept;
    RunSpaced(c, ps);
    assert Prompt(c, ds[i]) && Prompt(c, ds[j]);
    if i < j {
      assert FreeAfter(c, ds[..j], ds[j].at);
      assert ds[..j][i] == ds[i] && ds[..j][i..] == ds[i..j];
      SerialsNonNegative(c, ds[i..j]);
    }
  }

  // ---------------------------------------------------------------- optimality

  /** Departure times that respect due times and the line's rate. */
  predicate Feasible(c: Shaper, ds: seq<Departure>, xs: seq<real>)
    requires c.Valid()
  {
    && |xs| == |ds|
    && forall k :: 0 <= k < |xs| ==>
         xs[k] >= ds[k].due as real && (k > 0 ==> xs[k] >= xs[k - 1] + c.Serial(ds[k - 1].pkt))
  }

  predicate NoLater(ds: seq<Departure>, xs: seq<real>)
    requires |xs| == |ds|
  {
    forall k :: 0 <= k < |ds| ==> ds[k].at <= xs[k]
  }

  /** The line is free no later than under the schedule `xs`. */
  predicate FreeNoLater(c: Shaper, ds: seq<Departure>, xs: seq<real>, t: real)
    requires c.Valid() && |xs| == |ds|
  {
    t <= if ds == [] then 0.0 else xs[|ds| - 1] + c.Serial(ds[|ds| - 1].pkt)
  }

  lemma EarliestStep(c: Shaper, ds: seq<Departure>, nextAt: real, d: Departure, xs: seq<real>)
    requires c.Valid() && Feasible(c, ds + [d], xs)
    requires NoLater(ds, xs[..|ds|]) && FreeNoLater(c, ds, xs[..|ds|], nextAt)
    requires d.at == Max(d.due as real, nextAt)
    ensures NoLater(ds + [d], xs) && FreeNoLater(c, ds + [d], xs, d.at + c.Serial(d.pkt))
  {
    var more := ds + [d];
    assert more[|ds|] == d;
    assert ds != [] ==> more[|ds| - 1] == ds[|ds| - 1];
    assert d.at <= xs[|ds|];
    forall k | 0 <= k < |more| ensures more[k].at <= xs[k] {
      assert k < |ds| ==> more[k] == ds[k] && xs[..|ds|][k] == xs[k];
    }
  }

  lemma FeasibleFront(c: Shaper, ds: seq<Departure>, d: Departure, xs: seq<real>)
    requires c.Valid() && Feasible(c, ds + [d], xs)
    ensures Feasible(c, ds, xs[..|ds|])
  {
    var more := ds + [d];
    forall k | 0 <= k < |ds|
      ensures xs[k] >= ds[k].due as real && (k > 0 ==> xs[k] >= xs[k - 1] + c.Serial(ds[k - 1].pkt))
    {
      assert more[k] == ds[k] && (k > 0 ==> more[k - 1] == ds[k - 1]);
    }
  }

  /** No feasible schedule of the accepted packets sends any of them earlier. */
  lemma {:induction false} EarliestSchedule(c: Shaper, ps: seq<Pkt>, xs: seq<real>)
    requires c.Valid() && Feasible(c, Run(Virtual(c), 0.0, ps).kept, xs)
    ensures var t := Run(Virtual(c), 0.0, ps);
            NoLater(t.kept, xs) && FreeNoLater(c, t.kept, xs, t.state)
  {
    if ps != [] {
      var front := ps[..|ps| - 1];
      var t := Run(Virtual(c), 0.0, front);
      VirtualStep(c, t.state, ps[|ps| - 1]);
      var (s, out) := Virtual(c)(t.state, ps[|ps| - 1]);
      if out.None? {
        EarliestSchedule(c, front, xs);
      } else {
        FeasibleFront(c, t.kept, out.value, xs);
        EarliestSchedule(c, front, xs[..|t.kept|]);
        EarliestStep(c, t.kept, t.state, out.value, xs);
      }
    }
  }
}
