/**
 Receive stages of the path emulator, as stateful filters.

 A stage looks at one packet and its own state, and either drops the packet or
 passes on a possibly restamped one.  The emulator's shapers and loss models are
 stages; this module holds what is true of all of them.
 */
module Stages {
  import opened Sequences

  /** The most packets the loops read at once. */
  const BURST_SIZE: nat := 64

  /** A packet buffer: its length and its timestamp field. */
  datatype Pkt = Pkt(id: nat, len: nat, stamp: nat) {
    /** Size on the wire as the shapers count it. */
    function Size(): nat { len + 24 }
  }

  /** Packets in order of their time stamps. */
  predicate Sorted(ps: seq<Pkt>) {
    forall i, j :: 0 <= i < j < |ps| ==> ps[i].stamp <= ps[j].stamp
  }

  /** Packets that a software loop reads in one go, and the time it does so. */
  datatype Burst = Burst(time: nat, pkts: seq<Pkt>)

  /** The packets of a burst, all arriving at the time of the burst. */
  function Arrivals(u: Burst): (ps: seq<Pkt>)
    ensures |ps| == |u.pkts| && forall i :: 0 <= i < |ps| ==> ps[i] == u.pkts[i].(stamp := u.time)
  {
    seq(|u.pkts|, i requires 0 <= i < |u.pkts| => u.pkts[i].(stamp := u.time))
  }

  function AllArrivals(us: seq<Burst>): seq<Pkt> {
    if us == [] then [] else AllArrivals(us[..|us| - 1]) + Arrivals(us[|us| - 1])
  }

  /** Bursts in order of their times, the last one no later than `now`. */
  predicate Ordered(us: seq<Burst>, now: nat) {
    us != [] ==> us[|us| - 1].time <= now && Ordered(us[..|us| - 1], us[|us| - 1].time)
  }

  /** Then the packets are in order, too. */
  lemma {:induction false} OrderedArrivals(us: seq<Burst>, now: nat)
    requires Ordered(us, now)
    ensures Sorted(AllArrivals(us))
    ensures forall i :: 0 <= i < |AllArrivals(us)| ==> AllArrivals(us)[i].stamp <= now
  {
    if us != [] {
      OrderedArrivals(us[..|us| - 1], us[|us| - 1].time);
    }
  }

  lemma SortedSnoc(ps: seq<Pkt>, p: Pkt, now: nat)
    requires Sorted(ps) && now <= p.stamp && forall i :: 0 <= i < |ps| ==> ps[i].stamp <= now
    ensures Sorted(ps + [p])
  {
  }

  datatype Trace<S, P, Q> = Trace(state: S, kept: seq<Q>, dropped: seq<P>)

  function Apply<S, P, Q>(step: (S, P) -> (S, Option<Q>), t: Trace<S, P, Q>, p: P): Trace<S, P, Q> {
    var (s, out) := step(t.state, p);
    match out
    case None => Trace(s, t.kept, t.dropped + [p])
    case Some(q) => Trace(s, t.kept + [q], t.dropped)
  }

  /** A stage over a stream of packets. */
  function Run<S, P, Q>(step: (S, P) -> (S, Option<Q>), s: S, ps: seq<P>): Trace<S, P, Q> {
    if ps == [] then Trace(s, [], [])
    else Apply(step, Run(step, s, ps[..|ps| - 1]), ps[|ps| - 1])
  }

  /** One more packet. */
  lemma RunSnoc<S, P, Q>(step: (S, P) -> (S, Option<Q>), s: S, ps: seq<P>, p: P, all: seq<P>)
    requires all == ps + [p]
    ensures Run(step, s, all) == Apply(step, Run(step, s, ps), p)
  {
    assert all[..|ps|] == ps;
  }

  /** A stage that is already at work does the same from where it is. */
  lemma ApplyBehind<S, P, Q>(step: (S, P) -> (S, Option<Q>), t: Trace<S, P, Q>, u: Trace<S, P, Q>, p: P)
    ensures var v := Apply(step, u, p);
            Apply(step, Trace(u.state, t.kept + u.kept, t.dropped + u.dropped), p)
            == Trace(v.state, t.kept + v.kept, t.dropped + v.dropped)
  {
  }

  /** Cutting a stream in two changes nothing. */
  lemma {:induction false} RunConcat<S, P, Q>(step: (S, P) -> (S, Option<Q>), s: S, a: seq<P>, b: seq<P>)
    ensures var t := Run(step, s, a);
            var u := Run(step, t.state, b);
            Run(step, s, a + b) == Trace(u.state, t.kept + u.kept, t.dropped + u.dropped)
  {
    if b == [] {
      assert a + b == a;
    } else {
      var front, p := b[..|b| - 1], b[|b| - 1];
      RunConcat(step, s, a, front);
      RunSnoc(step, s, a + front, p, a + b);
      var t := Run(step, s, a);
      ApplyBehind(step, t, Run(step, t.state, front), p);
    }
  }

  /** A stage over a stream that arrives in bursts. */
  function RunBursts<S, P, Q>(step: (S, P) -> (S, Option<Q>), s: S, bursts: seq<seq<P>>): Trace<S, P, Q> {
    if bursts == [] then Trace(s, [], [])
    else
      var t := RunBursts(step, s, bursts[..|bursts| - 1]);
      var u := Run(step, t.state, bursts[|bursts| - 1]);
      Trace(u.state, t.kept + u.kept, t.dropped + u.dropped)
  }

  lemma RunBurstsStep<S, P, Q>(step: (S, P) -> (S, Option<Q>), s: S, bursts: seq<seq<P>>, i: nat)
    requires i < |bursts|
    ensures var t := RunBursts(step, s, bursts[..i]);
            var u := Run(step, t.state, bursts[i]);
            RunBursts(step, s, bursts[..i + 1]) == Trace(u.state, t.kept + u.kept, t.dropped + u.dropped)
  {
    assert bursts[..i + 1][..i] == bursts[..i];
  }

  /** How a stream is cut into bursts is irrelevant. */
  lemma {:induction false} BurstsIrrelevant<S, P, Q>(step: (S, P) -> (S, Option<Q>), s: S, bursts: seq<seq<P>>)
    ensures RunBursts(step, s, bursts) == Run(step, s, Flat(bursts))
  {
    if bursts != [] {
      BurstsIrrelevant(step, s, bursts[..|bursts| - 1]);
      RunConcat(step, s, Flat(bursts[..|bursts| - 1]), bursts[|bursts| - 1]);
    }
  }

  /** Every packet is either kept or dropped. */
  lemma {:induction false} RunCounts<S, P, Q>(step: (S, P) -> (S, Option<Q>), s: S, ps: seq<P>)
    ensures |Run(step, s, ps).kept| + |Run(step, s, ps).dropped| == |ps|
  {
    if ps != [] {
      RunCounts(step, s, ps[..|ps| - 1]);
    }
  }

  /** What holds of everything a stage may pass on holds of what it kept. */
  lemma {:induction false} KeptAll<S(!new), P, Q>(
      step: (S, P) -> (S, Option<Q>), s: S, ps: seq<P>, good: Q -> bool)
    requires forall s: S, i :: 0 <= i < |ps| && step(s, ps[i]).1.Some? ==> good(step(s, ps[i]).1.value)
    ensures forall i :: 0 <= i < |Run(step, s, ps).kept| ==> good(Run(step, s, ps).kept[i])
  {
    if ps != [] {
      KeptAll(step, s, ps[..|ps| - 1], good);
    }
  }

  /** A stage that drops nothing, whatever its state, keeps the stream. */
  lemma {:induction false} KeepsEvery<S(!new), P>(step: (S, P) -> (S, Option<P>), s: S, ps: seq<P>)
    requires forall s: S, i :: 0 <= i < |ps| ==> step(s, ps[i]).1 == Some(ps[i])
    ensures Run(step, s, ps).kept == ps
  {
    if ps != [] {
      var front, p := ps[..|ps| - 1], ps[|ps| - 1];
      assert ps == front + [p];
      KeepsEvery(step, s, front);
      RunSnoc(step, s, front, p, ps);
    }
  }

  /** A stage that keeps every packet and its own state does nothing. */
  lemma {:induction false} KeepsAll<S, P>(step: (S, P) -> (S, Option<P>), s: S, ps: seq<P>)
    requires forall i :: 0 <= i < |ps| ==> step(s, ps[i]) == (s, Some(ps[i]))
    ensures Run(step, s, ps) == Trace(s, ps, [])
  {
    if ps != [] {
      KeepsAll(step, s, ps[..|ps| - 1]);
      assert ps == ps[..|ps| - 1] + [ps[|ps| - 1]];
    }
  }

  /** Two stages in one pass: the second sees only what the first keeps. */
  function Fuse<S, T, P, Q, R>(f: (S, P) -> (S, Option<Q>), g: (T, Q) -> (T, Option<R>))
    : ((S, T), P) -> ((S, T), Option<R>)
  {
    (st: (S, T), p: P) =>
      var (s, out) := f(st.0, p);
      match out
      case None => ((s, st.1), None)
      case Some(q) =>
        var (t, r) := g(st.1, q);
        ((s, t), r)
  }

  lemma FuseApplied<S, T, P, Q, R>(
      f: (S, P) -> (S, Option<Q>), g: (T, Q) -> (T, Option<R>), s: S, t: T, p: P)
    ensures var (s1, out) := f(s, p);
            match out
            case None => Fuse(f, g)((s, t), p) == ((s1, t), None)
            case Some(q) => Fuse(f, g)((s, t), p) == ((s1, g(t, q).0), g(t, q).1)
  {
  }

  /** One pass through both stages equals a pass through the first followed by
      a pass through the second: same packets kept, same states reached. */
  lemma {:induction false} FusedIsStaged<S, T, P, Q, R>(
      f: (S, P) -> (S, Option<Q>), g: (T, Q) -> (T, Option<R>), s: S, t: T, ps: seq<P>)
    ensures var fused := Run(Fuse(f, g), (s, t), ps);
            var first := Run(f, s, ps);
            var second := Run(g, t, first.kept);
            fused.state == (first.state, second.state) && fused.kept == second.kept
  {
    if ps != [] {
      var front := ps[..|ps| - 1];
      FusedIsStaged(f, g, s, t, front);
      var first := Run(f, s, front);
      var (s1, out) := f(first.state, ps[|ps| - 1]);
      if out.Some? {
        assert (first.kept + [out.value])[..|first.kept|] == first.kept;
      }
    }
  }

  /** Both stages, burst by burst, as the receive loops run them. */
  function StagedBursts<S, T, P, Q, R>(
      f: (S, P) -> (S, Option<Q>), g: (T, Q) -> (T, Option<R>), s: S, t: T, bursts: seq<seq<P>>): (S, T, seq<R>)
  {
    if bursts == [] then (s, t, [])
    else
      var before := StagedBursts(f, g, s, t, bursts[..|bursts| - 1]);
      var first := Run(f, before.0, bursts[|bursts| - 1]);
      var second := Run(g, before.1, first.kept);
      (first.state, second.state, before.2 + second.kept)
  }

  /** Burst by burst, the two stages do what they do to the whole stream. */
  lemma {:induction false} StagedBurstsIrrelevant<S, T, P, Q, R>(
      f: (S, P) -> (S, Option<Q>), g: (T, Q) -> (T, Option<R>), s: S, t: T, bursts: seq<seq<P>>)
    ensures var first := Run(f, s, Flat(bursts));
            var second := Run(g, t, first.kept);
            StagedBursts(f, g, s, t, bursts) == (first.state, second.state, second.kept)
  {
    if bursts != [] {
      var front := bursts[..|bursts| - 1];
      var last := bursts[|bursts| - 1];
      StagedBurstsIrrelevant(f, g, s, t, front);
      var first := Run(f, s, Flat(front));
      RunConcat(f, s, Flat(front), last);
      RunConcat(g, t, first.kept, Run(f, first.state, last).kept);
    }
  }
}
