/**
 Launch times on a saturated line (src/launch-timestamp.cpp).

 The line never idles, so a position on the wire, counted in bytes since a
 timestamped frame, is a time.  The emulator turns the launch time of a packet
 into a gap in front of it; the rate limiter turns the gap into fillers.  The
 emulator counts positions as if every gap were filled to the byte.  The rate
 limiter carries what it could not fill.

 Doubles are reals, and conversions to integers round down.
 */
module LaunchTime {
  import opened CrcRateControl
  import opened Integers
  import opened Reals
  import opened Sequences

  const IDLE_SIZE: nat := 1500
  const SEND_SIZE: nat := 9000
  const IDLE_BATCH: nat := 64
  const WARMUP: nat := 100
  /** A packet later than this, in nanoseconds, is dropped. */
  const MAX_LATE: int := 100000

  /** The line: the time of the timestamped frame, the duration of a byte in
      nanoseconds and the sizes of frames. */
  datatype Line = Line(first: nat, ns: real, minSize: nat, overhead: nat) {
    function Sending(): Sizes { Sizes(minSize, overhead, SEND_SIZE) }

    function MinWire(): nat { minSize + overhead }

    predicate Valid() {
      ns > 0.0 && Sending().Sane()
    }

    /** The time at which a position on the wire passes. */
    function TimeAt(bytes: nat): real { first as real + Times(bytes, ns) }
  }

  /** The time of a position, as the code computes it. */
  function WireTime(first: nat, ns: real, bytes: nat): real {
    first as real + bytes as real * ns
  }

  function SendingTime(first: nat, ns: real, bytes: nat): (t: int)
    ensures t == (first as real + Times(bytes, ns)).Floor
  {
    TimesIsProduct(bytes, ns);
    WireTime(first, ns, bytes).Floor
  }

  /** Bytes that pass in `diff` nanoseconds. */
  function GapBytes(ns: real, diff: nat): (gap: nat)
    requires ns > 0.0
  {
    DivideNonNegative(diff as real, ns);
    (diff as real / ns).Floor
  }

  // ---------------------------------------------------------------- one batch

  datatype Verdict = Drop | Late | OnTime(gap: nat)

  /** How the emulator treats a packet for `goal` when it is at `offset`. */
  function Judge(line: Line, offset: nat, goal: nat): (v: Verdict)
    requires line.Valid()
  {
    var diff := goal - line.TimeAt(offset).Floor;
    if diff < -MAX_LATE then Drop
    else if diff < 0 then Late
    else OnTime(GapBytes(line.ns, diff))
  }

  datatype Schedule = Schedule(slots: seq<Slot>, offset: nat)

  function PlanOne(line: Line, s: Schedule, p: Packet): Schedule
    requires line.Valid()
  {
    match Judge(line, s.offset, p.stamp)
    case Drop => Schedule(s.slots + [Null], s.offset)
    case Late =>
      Schedule(s.slots + [Full(p.(stamp := 0, goal := p.stamp, late := true))],
               s.offset + p.len + line.overhead)
    case OnTime(gap) =>
      Schedule(s.slots + [Full(p.(stamp := gap, goal := p.stamp, late := false))],
               s.offset + p.len + line.overhead + gap)
  }

  /** The first pass over a batch: launch times become gaps. */
  function Plan(line: Line, pkts: seq<Packet>, offset: nat): (s: Schedule)
    requires line.Valid()
    ensures |s.slots| == |pkts|
  {
    if pkts == [] then Schedule([], offset)
    else PlanOne(line, Plan(line, pkts[..|pkts| - 1], offset), pkts[|pkts| - 1])
  }

  lemma PlanMore(line: Line, pkts: seq<Packet>, offset: nat, i: nat)
    requires line.Valid() && i < |pkts|
    ensures Plan(line, pkts[..i + 1], offset) == PlanOne(line, Plan(line, pkts[..i], offset), pkts[i])
  {
    assert pkts[..i + 1][..i] == pkts[..i];
  }

  // ---------------------------------------------------------------- whole runs

  /** The emulator's view and the truth.  `wire` is what was handed over since
      the timestamped frame; `lost` counts bytes that were planned but stayed
      in a transmit buffer that was never flushed. */
  datatype State = State(offset: nat, carry: nat, wire: seq<Frame>, lost: nat)

  /** Consecutive batches of idle fillers. */
  function IdleRun(k: nat): seq<Frame> {
    if k == 0 then [] else IdleRun(k - 1) + IdleFrames(IDLE_BATCH, IDLE_SIZE)
  }

  /** State after the line has been calibrated. */
  function Start(line: Line): State {
    var wire := IdleRun(1 + WARMUP);
    State(Bytes(line.overhead, wire), 0, wire, 0)
  }

  /** The second pass: a planned batch goes to the wire. */
  function Dispatch(line: Line, st: State, s: Schedule): State
    requires line.Valid()
  {
    var e := Expand(line.Sending(), s.slots, st.carry);
    var sent := HandedOver(s.slots, e.frames);
    State(s.offset, e.carry, st.wire + sent, st.lost + Bytes(line.overhead, e.frames[|sent|..]))
  }

  function Idled(line: Line, st: State): State {
    var idle := IdleFrames(IDLE_BATCH, IDLE_SIZE);
    State(st.offset + Bytes(line.overhead, idle), st.carry, st.wire + idle, st.lost)
  }

  /** One round of the transmit loop.  Nothing to send is the empty sequence. */
  function Round(line: Line, st: State, pkts: seq<Packet>): State
    requires line.Valid()
  {
    if pkts == [] then Idled(line, st) else Dispatch(line, st, Plan(line, pkts, st.offset))
  }

  function Run(line: Line, st: State, rounds: seq<seq<Packet>>): State
    requires line.Valid()
  {
    if rounds == [] then st
    else Round(line, Run(line, st, rounds[..|rounds| - 1]), rounds[|rounds| - 1])
  }

  lemma RunStep(line: Line, st: State, rounds: seq<seq<Packet>>, i: nat)
    requires line.Valid() && i < |rounds|
    ensures Run(line, st, rounds[..i + 1]) == Round(line, Run(line, st, rounds[..i]), rounds[i])
  {
    assert rounds[..i + 1][..i] == rounds[..i];
  }

  /** The emulator's position is the wire, plus the carry, plus what was lost. */
  predicate Synchronous(line: Line, st: State) {
    st.offset == Bytes(line.overhead, st.wire) + st.carry + st.lost && st.carry < line.MinWire()
  }

  /** A packet that starts at `start` is within the promised window of its
      launch time. */
  predicate InWindow(line: Line, start: nat, p: Packet, lost: nat) {
    && p.goal as real - Times(line.MinWire() + lost, line.ns) < line.TimeAt(start)
    && line.TimeAt(start) < p.goal as real + (if p.late then 100001.0 else 1.0)
  }

  /** Every launch is within its window. */
  predicate Accurate(line: Line, launches: seq<Launch>, lost: nat) {
    forall i :: 0 <= i < |launches| ==> InWindow(line, launches[i].start, launches[i].pkt, lost)
  }

  // ---------------------------------------------------------------- no drift

  /** One more packet: its slot, and how far the position moves. */
  lemma PlanStep(line: Line, s: Schedule, p: Packet)
    requires line.Valid()
    ensures var t := PlanOne(line, s, p);
            && |t.slots| == |s.slots| + 1 && t.slots[..|s.slots|] == s.slots
            && t.slots[|s.slots|].Null? == Judge(line, s.offset, p.stamp).Drop?
            && match t.slots[|s.slots|] {
              case Null => t.offset == s.offset
              case Full(q) =>
                && t.offset == s.offset + q.len + line.overhead + q.stamp
                && q.goal == p.stamp && q.id == p.id && q.len == p.len
                && Judge(line, s.offset, q.goal) == (if q.late then Late else OnTime(q.stamp))
                && (q.late ==> q.stamp == 0)
            }
  {
  }

  /** Both passes over a batch move by the same number of bytes, up to the carry. */
  predicate Matches(line: Line, st: State, s: Schedule)
    requires line.Valid()
  {
    var e := Expand(line.Sending(), s.slots, st.carry);
    s.offset + st.carry == st.offset + Bytes(line.overhead, e.frames) + e.carry
  }

  lemma {:induction false} PlanMatches(line: Line, st: State, pkts: seq<Packet>)
    requires line.Valid()
    ensures Matches(line, st, Plan(line, pkts, st.offset))
  {
    if pkts != [] {
      var s := Plan(line, pkts[..|pkts| - 1], st.offset);
      PlanMatches(line, st, pkts[..|pkts| - 1]);
      PlanStep(line, s, pkts[|pkts| - 1]);
      MatchesStep(line, st, s, PlanOne(line, s, pkts[|pkts| - 1]));
    }
  }

  lemma MatchesStep(line: Line, st: State, s: Schedule, t: Schedule)
    requires line.Valid() && Matches(line, st, s)
    requires |t.slots| == |s.slots| + 1 && t.slots[..|s.slots|] == s.slots
    requires match t.slots[|s.slots|]
             case Null => t.offset == s.offset
             case Full(q) => t.offset == s.offset + q.len + line.overhead + q.stamp
    ensures Matches(line, st, t)
  {
    if t.slots[|s.slots|].Full? {
      ExpandOneConserves(line.Sending(), Expand(line.Sending(), s.slots, st.carry), t.slots[|s.slots|].pkt);
    }
  }

  lemma DispatchSynchronous(line: Line, st: State, s: Schedule)
    requires line.Valid() && Synchronous(line, st) && Matches(line, st, s)
    ensures Synchronous(line, Dispatch(line, st, s))
  {
    var e := Expand(line.Sending(), s.slots, st.carry);
    var sent := HandedOver(s.slots, e.frames);
    CarryBound(line.Sending(), s.slots, st.carry);
    BytesConcat(line.overhead, st.wire, sent);
    BytesConcat(line.overhead, sent, e.frames[|sent|..]);
    assert sent + e.frames[|sent|..] == e.frames;
  }

  lemma RoundSynchronous(line: Line, st: State, pkts: seq<Packet>)
    requires line.Valid() && Synchronous(line, st)
    ensures Synchronous(line, Round(line, st, pkts))
  {
    if pkts == [] {
      BytesConcat(line.overhead, st.wire, IdleFrames(IDLE_BATCH, IDLE_SIZE));
    } else {
      PlanMatches(line, st, pkts);
      DispatchSynchronous(line, st, Plan(line, pkts, st.offset));
    }
  }

  /** No drift: in every run the position is exact up to carry and loss. */
  lemma {:induction false} RunSynchronous(line: Line, rounds: seq<seq<Packet>>)
    requires line.Valid()
    ensures Synchronous(line, Run(line, Start(line), rounds))
  {
    if rounds != [] {
      RunSynchronous(line, rounds[..|rounds| - 1]);
      RoundSynchronous(line, Run(line, Start(line), rounds[..|rounds| - 1]), rounds[|rounds| - 1]);
    }
  }

  // ---------------------------------------------------------------- accuracy

  /** What a verdict says about the distance to the launch time. */
  lemma JudgeBounds(line: Line, offset: nat, goal: nat)
    requires line.Valid()
    ensures var diff := goal - line.TimeAt(offset).Floor;
            match Judge(line, offset, goal)
            case Drop => diff < -MAX_LATE
            case Late => -MAX_LATE <= diff < 0
            case OnTime(gap) => Times(gap, line.ns) <= diff as real < Times(gap + 1, line.ns)
  {
    var v := Judge(line, offset, goal);
    if v.OnTime? {
      FloorQuotient((goal - line.TimeAt(offset).Floor) as real, line.ns, v.gap);
    }
  }

  /** Where a packet really starts: at the planned position plus its gap, less
      what is carried on and less what was lost. */
  lemma PlannedStart(line: Line, offset: nat, p: Packet, gap: nat, start: nat, carry: nat, lost: nat)
    requires line.Valid() && carry < line.MinWire()
    requires start + carry + lost == offset + gap
    requires var diff := p.goal - line.TimeAt(offset).Floor;
             if p.late then -MAX_LATE <= diff < 0 && gap == 0
             else Times(gap, line.ns) <= diff as real < Times(gap + 1, line.ns)
    ensures InWindow(line, start, p, lost)
  {
    TimesSum(offset, gap, line.ns);
    TimesSum(start, carry + lost, line.ns);
    TimesOrder(0, carry + lost, line.ns);
    TimesOrder(carry + lost + 1, line.MinWire() + lost, line.ns);
  }

  lemma JudgedStart(line: Line, offset: nat, p: Packet, start: nat, carry: nat, lost: nat)
    requires line.Valid() && carry < line.MinWire() && start + carry + lost == offset + p.stamp
    requires Judge(line, offset, p.goal) == (if p.late then Late else OnTime(p.stamp)) && (p.late ==> p.stamp == 0)
    ensures InWindow(line, start, p, lost)
  {
    JudgeBounds(line, offset, p.goal);
    PlannedStart(line, offset, p, p.stamp, start, carry, lost);
  }

  /** Every packet a schedule would send is within its window. */
  predicate Timely(line: Line, st: State, s: Schedule)
    requires line.Valid()
  {
    var e := Expand(line.Sending(), s.slots, st.carry);
    Accurate(line, Launches(line.overhead, Bytes(line.overhead, st.wire), e.frames), st.lost)
  }

  lemma {:induction false} PlanTimely(line: Line, st: State, pkts: seq<Packet>)
    requires line.Valid() && Synchronous(line, st)
    ensures Timely(line, st, Plan(line, pkts, st.offset))
  {
    if pkts != [] {
      var front := pkts[..|pkts| - 1];
      var s := Plan(line, front, st.offset);
      PlanTimely(line, st, front);
      PlanMatches(line, st, front);
      PlanStep(line, s, pkts[|pkts| - 1]);
      TimelyStep(line, st, s, PlanOne(line, s, pkts[|pkts| - 1]));
    }
  }

  lemma TimelyStep(line: Line, st: State, s: Schedule, t: Schedule)
    requires line.Valid() && Synchronous(line, st) && Matches(line, st, s) && Timely(line, st, s)
    requires |t.slots| == |s.slots| + 1 && t.slots[..|s.slots|] == s.slots
    requires match t.slots[|s.slots|]
             case Null => true
             case Full(q) =>
               && Judge(line, s.offset, q.goal) == (if q.late then Late else OnTime(q.stamp))
               && (q.late ==> q.stamp == 0)
    ensures Timely(line, st, t)
  {
    var e := Expand(line.Sending(), s.slots, st.carry);
    if t.slots[|s.slots|].Full? {
      LaunchInWindow(line, Bytes(line.overhead, st.wire), e, s.offset, t.slots[|s.slots|].pkt, st.lost);
    }
  }

  /** One more packet behind the frames `e`, which start at `base`. */
  lemma LaunchInWindow(line: Line, base: nat, e: Expansion, offset: nat, q: Packet, lost: nat)
    requires line.Valid() && offset == base + Bytes(line.overhead, e.frames) + e.carry + lost
    requires Accurate(line, Launches(line.overhead, base, e.frames), lost)
    requires Judge(line, offset, q.goal) == (if q.late then Late else OnTime(q.stamp)) && (q.late ==> q.stamp == 0)
    ensures Accurate(line, Launches(line.overhead, base, ExpandOne(line.Sending(), e, Full(q)).frames), lost)
  {
    var e1 := ExpandOne(line.Sending(), e, Full(q));
    ExpandOneLaunch(line.Sending(), base, e, q);
    var start := base + Bytes(line.overhead, e.frames) + q.stamp + e.carry - e1.carry;
    var launches := Launches(line.overhead, base, e.frames);
    AccurateSnoc(line, launches, Launch(start, q), lost, Launches(line.overhead, base, e1.frames)) by {
      JudgedStart(line, offset, q, start, e1.carry, lost);
    }
  }

  lemma AccurateSnoc(line: Line, launches: seq<Launch>, l: Launch, lost: nat, all: seq<Launch>)
    requires Accurate(line, launches, lost) && InWindow(line, l.start, l.pkt, lost) && all == launches + [l]
    ensures Accurate(line, all, lost)
  {
    forall i | 0 <= i < |all| ensures InWindow(line, all[i].start, all[i].pkt, lost) {
      assert i < |launches| ==> all[i] == launches[i];
    }
  }

  /** Losing more only widens the window. */
  lemma AccurateWiden(line: Line, launches: seq<Launch>, lost: nat, lostMore: nat)
    requires line.Valid() && lost <= lostMore && Accurate(line, launches, lost)
    ensures Accurate(line, launches, lostMore)
  {
    TimesOrder(line.MinWire() + lost, line.MinWire() + lostMore, line.ns);
  }

  lemma AccurateConcat(line: Line, a: seq<Launch>, b: seq<Launch>, lost: nat)
    ensures Accurate(line, a + b, lost) <==> Accurate(line, a, lost) && Accurate(line, b, lost)
  {
    if Accurate(line, a + b, lost) {
      forall i | 0 <= i < |a| ensures InWindow(line, a[i].start, a[i].pkt, lost) {
        assert (a + b)[i] == a[i];
      }
      forall i | 0 <= i < |b| ensures InWindow(line, b[i].start, b[i].pkt, lost) {
        assert (a + b)[|a| + i] == b[i];
      }
    }
  }

  lemma IdleAccurate(line: Line, st: State)
    requires line.Valid()
    requires Accurate(line, Launches(line.overhead, 0, st.wire), st.lost)
    ensures Accurate(line, Launches(line.overhead, 0, Idled(line, st).wire), st.lost)
  {
    var idle := IdleFrames(IDLE_BATCH, IDLE_SIZE);
    LaunchesConcat(line.overhead, 0, st.wire, idle);
    IdleLoads(IDLE_BATCH, IDLE_SIZE);
    NoLaunches(line.overhead, Bytes(line.overhead, st.wire), idle);
  }

  /** A prefix of accurate frames behind an accurate wire. */
  lemma SentAccurate(line: Line, wire: seq<Frame>, frames: seq<Frame>, sent: seq<Frame>, lost: nat)
    requires sent <= frames
    requires Accurate(line, Launches(line.overhead, 0, wire), lost)
    requires Accurate(line, Launches(line.overhead, Bytes(line.overhead, wire), frames), lost)
    ensures Accurate(line, Launches(line.overhead, 0, wire + sent), lost)
  {
    var base := Bytes(line.overhead, wire);
    var rest := frames[|sent|..];
    assert sent + rest == frames;
    LaunchesConcat(line.overhead, base, sent, rest);
    AccurateConcat(line, Launches(line.overhead, base, sent),
                   Launches(line.overhead, base + Bytes(line.overhead, sent), rest), lost);
    LaunchesConcat(line.overhead, 0, wire, sent);
    AccurateConcat(line, Launches(line.overhead, 0, wire), Launches(line.overhead, base, sent), lost);
  }

  lemma DispatchAccurate(line: Line, st: State, s: Schedule)
    requires line.Valid() && Timely(line, st, s)
    requires Accurate(line, Launches(line.overhead, 0, st.wire), st.lost)
    ensures var st1 := Dispatch(line, st, s);
            Accurate(line, Launches(line.overhead, 0, st1.wire), st1.lost)
  {
    var e := Expand(line.Sending(), s.slots, st.carry);
    var st1 := Dispatch(line, st, s);
    SentAccurate(line, st.wire, e.frames, HandedOver(s.slots, e.frames), st.lost);
    AccurateWiden(line, Launches(line.overhead, 0, st1.wire), st.lost, st1.lost);
  }

  lemma RoundAccurate(line: Line, st: State, pkts: seq<Packet>)
    requires line.Valid() && Synchronous(line, st)
    requires Accurate(line, Launches(line.overhead, 0, st.wire), st.lost)
    ensures var st1 := Round(line, st, pkts);
            Accurate(line, Launches(line.overhead, 0, st1.wire), st1.lost)
  {
    if pkts == [] {
      IdleAccurate(line, st);
    } else {
      PlanTimely(line, st, pkts);
      DispatchAccurate(line, st, Plan(line, pkts, st.offset));
    }
  }

  lemma {:induction false} IdleRunLoads(k: nat)
    ensures Loads(IdleRun(k)) == []
  {
    if k > 0 {
      IdleRunLoads(k - 1);
      IdleLoads(IDLE_BATCH, IDLE_SIZE);
      LoadsConcat(IdleRun(k - 1), IdleFrames(IDLE_BATCH, IDLE_SIZE));
    }
  }

  lemma {:induction false} IdleLoads(n: nat, len: nat)
    ensures Loads(IdleFrames(n, len)) == []
  {
    if n > 0 {
      IdleLoads(n - 1, len);
      assert IdleFrames(n, len)[..n - 1] == IdleFrames(n - 1, len);
    }
  }

  /** Launch-time accuracy: in every run, every packet that reaches the wire
      starts later than its launch time less the smallest gap that is filled
      (and less what was lost before), and before its launch time plus 1 ns, or
      plus 100001 ns if it was judged late. */
  lemma {:induction false} RunAccurate(line: Line, rounds: seq<seq<Packet>>)
    requires line.Valid()
    ensures var st := Run(line, Start(line), rounds);
            Accurate(line, Launches(line.overhead, 0, st.wire), st.lost)
  {
    if rounds == [] {
      IdleRunLoads(1 + WARMUP);
      NoLaunches(line.overhead, 0, Start(line).wire);
    } else {
      var front := rounds[..|rounds| - 1];
      RunAccurate(line, front);
      RunSynchronous(line, front);
      RoundAccurate(line, Run(line, Start(line), front), rounds[|rounds| - 1]);
    }
  }

  // ---------------------------------------------------------------- loss

  /** The slot of each packet still is that packet, and remembers its launch time. */
  lemma {:induction false} PlanKeepsPackets(line: Line, pkts: seq<Packet>, offset: nat, i: nat)
    requires line.Valid() && i < |pkts|
    ensures var slot := Plan(line, pkts, offset).slots[i];
            slot.Full? ==>
              slot.pkt.id == pkts[i].id && slot.pkt.len == pkts[i].len && slot.pkt.goal == pkts[i].stamp
  {
    var s := Plan(line, pkts[..|pkts| - 1], offset);
    PlanStep(line, s, pkts[|pkts| - 1]);
    if i < |pkts| - 1 {
      PlanKeepsPackets(line, pkts[..|pkts| - 1], offset, i);
      assert Plan(line, pkts, offset).slots[i] == s.slots[i];
    }
  }

  /** How far a schedule has come when the turn of packet `i` comes. */
  function Reached(line: Line, pkts: seq<Packet>, offset: nat, i: nat): nat
    requires line.Valid() && i <= |pkts|
  {
    Plan(line, pkts[..i], offset).offset
  }

  /** What becomes of a packet whose turn comes at position `at`.  It is dropped
      if it is more than 100000 ns late; if it is late it has no gap; otherwise
      its gap is what passes until its launch time.  `next` is the position
      behind it. */
  predicate Judged(line: Line, at: nat, p: Packet, slot: Slot, next: nat)
    requires line.Valid()
  {
    var diff := p.stamp - WireTime(line.first, line.ns, at).Floor;
    if diff < -100000 then slot == Null && next == at
    else
      && slot.Full? && slot.pkt.id == p.id && slot.pkt.len == p.len && slot.pkt.goal == p.stamp
      && (slot.pkt.late <==> diff < 0)
      && slot.pkt.stamp == (if diff < 0 then 0 else GapBytes(line.ns, diff))
      && next == at + slot.pkt.stamp + p.len + line.overhead
  }

  lemma PlanOneJudged(line: Line, s: Schedule, p: Packet)
    requires line.Valid()
    ensures var t := PlanOne(line, s, p);
            |t.slots| == |s.slots| + 1 && Judged(line, s.offset, p, t.slots[|s.slots|], t.offset)
  {
    TimeIsWireTime(line, s.offset);
  }

  lemma TimeIsWireTime(line: Line, at: nat)
    ensures line.TimeAt(at) == WireTime(line.first, line.ns, at)
  {
    TimesIsProduct(at, line.ns);
  }

  /** Every packet of a batch is judged by the position that the packets before
      it have reached. */
  lemma {:induction false} PlanJudged(line: Line, pkts: seq<Packet>, offset: nat, i: nat)
    requires line.Valid() && i < |pkts|
    ensures Judged(line, Reached(line, pkts, offset, i), pkts[i], Plan(line, pkts, offset).slots[i],
                   Reached(line, pkts, offset, i + 1))
  {
    var front := pkts[..|pkts| - 1];
    var s := Plan(line, front, offset);
    if i < |front| {
      PlanJudged(line, front, offset, i);
      assert front[..i] == pkts[..i] && front[..i + 1] == pkts[..i + 1];
      assert Plan(line, pkts, offset).slots[i] == s.slots[i];
    } else {
      PlanOneJudged(line, s, pkts[i]);
      assert pkts[..i] == front && pkts[..i + 1] == pkts;
    }
  }

  /** All packets of a batch are judged so. */
  predicate BatchJudged(line: Line, pkts: seq<Packet>, offset: nat, slots: seq<Slot>)
    requires line.Valid()
  {
    |slots| == |pkts| && forall i :: 0 <= i < |pkts| ==>
      Judged(line, Reached(line, pkts, offset, i), pkts[i], slots[i], Reached(line, pkts, offset, i + 1))
  }

  lemma PlanBatchJudged(line: Line, pkts: seq<Packet>, offset: nat)
    requires line.Valid()
    ensures BatchJudged(line, pkts, offset, Plan(line, pkts, offset).slots)
  {
    forall i | 0 <= i < |pkts|
      ensures Judged(line, Reached(line, pkts, offset, i), pkts[i], Plan(line, pkts, offset).slots[i],
                     Reached(line, pkts, offset, i + 1))
    {
      PlanJudged(line, pkts, offset, i);
    }
  }

  /** A packet is sent if and only if its launch time plus 100000 ns is not
      before the time of the position reached when its turn comes. */
  lemma SentIff(line: Line, pkts: seq<Packet>, offset: nat, i: nat)
    requires line.Valid() && i < |pkts|
    ensures Plan(line, pkts, offset).slots[i].Full? <==> Punctual(line, pkts, offset, i)
  {
    PlanJudged(line, pkts, offset, i);
    JudgedFull(line, Reached(line, pkts, offset, i), pkts[i], Plan(line, pkts, offset).slots[i],
               Reached(line, pkts, offset, i + 1));
  }

  lemma JudgedFull(line: Line, at: nat, p: Packet, slot: Slot, next: nat)
    requires line.Valid() && Judged(line, at, p, slot, next)
    ensures slot.Full? <==> WireTime(line.first, line.ns, at).Floor <= p.stamp + 100000
  {
  }

  predicate Punctual(line: Line, pkts: seq<Packet>, offset: nat, i: nat)
    requires line.Valid() && i < |pkts|
  {
    WireTime(line.first, line.ns, Reached(line, pkts, offset, i)).Floor <= pkts[i].stamp + 100000
  }

  /** When the turn of the last packet comes, it is not too late to be sent. */
  predicate LastInTime(line: Line, offset: nat, pkts: seq<Packet>)
    requires line.Valid() && pkts != []
  {
    Punctual(line, pkts, offset, |pkts| - 1)
  }

  /** Then, and only then, the batch ends with a packet and is flushed. */
  lemma FlushesIff(line: Line, offset: nat, pkts: seq<Packet>)
    requires line.Valid() && pkts != []
    ensures Flushes(Plan(line, pkts, offset).slots) <==> LastInTime(line, offset, pkts)
  {
    SentIff(line, pkts, offset, |pkts| - 1);
  }

  /** The frames of a batch fill whole transmit buffers. */
  predicate FillsBuffers(line: Line, st: State, pkts: seq<Packet>)
    requires line.Valid()
  {
    |Expand(line.Sending(), Plan(line, pkts, st.offset).slots, st.carry).frames| % 64 == 0
  }

  /** What a round must meet to be delivered whole. */
  predicate Complete(line: Line, st: State, pkts: seq<Packet>)
    requires line.Valid()
  {
    pkts == [] || LastInTime(line, st.offset, pkts) || FillsBuffers(line, st, pkts)
  }

  /** Every round of a run meets it, in the state that the rounds before it leave. */
  predicate RunComplete(line: Line, st: State, rounds: seq<seq<Packet>>)
    requires line.Valid()
  {
    rounds != [] ==>
      var front := rounds[..|rounds| - 1];
      RunComplete(line, st, front) && Complete(line, Run(line, st, front), rounds[|rounds| - 1])
  }

  /** A batch is delivered whole exactly when its last packet is not dropped, or
      when its frames happen to fill whole transmit buffers.  Otherwise the
      frames of the last buffer are lost, and the line drifts by their bytes. */
  lemma DispatchLosslessIff(line: Line, st: State, s: Schedule)
    requires line.Valid()
    ensures var frames := Expand(line.Sending(), s.slots, st.carry).frames;
            var whole := Flushes(s.slots) || |frames| % 64 == 0;
            && (whole ==> Dispatch(line, st, s).lost == st.lost)
            && (!whole && line.overhead >= 1 ==> Dispatch(line, st, s).lost > st.lost)
  {
    var frames := Expand(line.Sending(), s.slots, st.carry).frames;
    var rest := frames[|HandedOver(s.slots, frames)|..];
    HandedOverAllIff(s.slots, frames);
    assert rest != [] ==> Bytes(line.overhead, rest) >= line.overhead;
  }

  lemma RoundLosslessIff(line: Line, st: State, pkts: seq<Packet>)
    requires line.Valid()
    ensures Complete(line, st, pkts) ==> Round(line, st, pkts).lost == st.lost
    ensures !Complete(line, st, pkts) && line.overhead >= 1 ==> Round(line, st, pkts).lost > st.lost
  {
    if pkts != [] {
      FlushesIff(line, st.offset, pkts);
      DispatchLosslessIff(line, st, Plan(line, pkts, st.offset));
    }
  }

  /** A run loses no byte if and only if every round is empty, ends with a packet
      that is not too late when its turn comes, or fills whole buffers. */
  lemma {:induction false} RunLosslessIff(line: Line, st: State, rounds: seq<seq<Packet>>)
    requires line.Valid()
    ensures RunComplete(line, st, rounds) ==> Run(line, st, rounds).lost == st.lost
    ensures !RunComplete(line, st, rounds) && line.overhead >= 1 ==> Run(line, st, rounds).lost > st.lost
  {
    if rounds != [] {
      var front := rounds[..|rounds| - 1];
      RunLosslessIff(line, st, front);
      RoundLosslessIff(line, Run(line, st, front), rounds[|rounds| - 1]);
      LostGrows(line, Run(line, st, front), rounds[|rounds| - 1]);
    }
  }

  lemma LostGrows(line: Line, st: State, pkts: seq<Packet>)
    requires line.Valid()
    ensures Round(line, st, pkts).lost >= st.lost
  {
  }

  /** If the last packet is dropped and the frames do not fill one transmit
      buffer, nothing of the batch reaches the wire. */
  lemma LostTail(line: Line, st: State, s: Schedule)
    requires line.Valid() && !Flushes(s.slots)
    requires |Expand(line.Sending(), s.slots, st.carry).frames| < 64
    ensures var frames := Expand(line.Sending(), s.slots, st.carry).frames;
            && Dispatch(line, st, s).wire == st.wire
            && Dispatch(line, st, s).lost == st.lost + Bytes(line.overhead, frames)
  {
    var frames := Expand(line.Sending(), s.slots, st.carry).frames;
    assert HandedOver(s.slots, frames) == [];
    assert frames[0..] == frames;
  }

  /** A packet for right now is planned without a gap. */
  lemma PlanNow(line: Line, offset: nat, p: Packet)
    requires line.Valid() && p.stamp == line.TimeAt(offset).Floor
    ensures Plan(line, [p], offset)
            == Schedule([Full(p.(stamp := 0, goal := p.stamp, late := false))], offset + p.len + line.overhead)
  {
    assert [p][..0] == [];
    FloorQuotient(0.0, line.ns, GapBytes(line.ns, 0));
    TimesOrder(1, GapBytes(line.ns, 0) + 1, line.ns);
    assert GapBytes(line.ns, 0) == 0;
  }

  /** A packet that is sent at once, and behind it one that is too late. */
  predicate LostPair(line: Line, st: State, p: Packet, q: Packet) {
    p.stamp == line.TimeAt(st.offset).Floor && q.stamp + 100000 < p.stamp
  }

  lemma PlanPair(line: Line, st: State, p: Packet, q: Packet)
    requires line.Valid() && LostPair(line, st, p, q)
    ensures Plan(line, [p, q], st.offset)
            == Schedule([Full(p.(stamp := 0, goal := p.stamp, late := false)), Null], st.offset + p.len + line.overhead)
  {
    PlanNow(line, st.offset, p);
    assert [p, q][..1] == [p];
    TimesOrder(st.offset, st.offset + p.len + line.overhead, line.ns);
  }

  lemma ExpandPair(c: Sizes, p: Packet, carry: nat)
    requires c.Sane() && p.stamp == 0 && carry < c.MinWire()
    ensures Expand(c, [Full(p), Null], carry) == Expansion([Load(p)], carry)
    ensures Survivors([Full(p), Null]) == [p]
  {
    var slots := [Full(p), Null];
    assert slots[..1] == [Full(p)] && [Full(p)][..0] == [];
    assert FillerFrames(c, carry) == [];
    assert Expand(c, [Full(p)], carry) == ExpandOne(c, Expansion([], carry), Full(p));
    assert Survivors([Full(p)]) == [] + [p];
  }

  /** The first packet of such a pair is not dropped, and yet never reaches the
      wire: the second one keeps it in the buffer. */
  lemma PairIsLost(line: Line, st: State, p: Packet, q: Packet)
    requires line.Valid() && st.carry < line.MinWire() && LostPair(line, st, p, q)
    ensures Survivors(Plan(line, [p, q], st.offset).slots) == [p.(stamp := 0, goal := p.stamp, late := false)]
    ensures Round(line, st, [p, q]).wire == st.wire
    ensures Round(line, st, [p, q]).lost == st.lost + p.len + line.overhead
    ensures !Complete(line, st, [p, q])
  {
    PlanPair(line, st, p, q);
    FlushesIff(line, st.offset, [p, q]);
    var sent := p.(stamp := 0, goal := p.stamp, late := false);
    ExpandPair(line.Sending(), sent, st.carry);
    assert [Load(sent)][..0] == [];
    LostTail(line, st, Plan(line, [p, q], st.offset));
  }

  /** The frames of a batch, if any, end with a packet. */
  lemma {:induction false} EndsWithLoad(c: Sizes, slots: seq<Slot>, carry: nat)
    requires c.Sane()
    ensures var frames := Expand(c, slots, carry).frames;
            frames != [] ==> frames[|frames| - 1].Load?
  {
    if slots != [] {
      EndsWithLoad(c, slots[..|slots| - 1], carry);
    }
  }

  /** Leaving out the end of such frames leaves out a packet. */
  lemma LoadsOfPrefix(frames: seq<Frame>, sent: seq<Frame>)
    requires sent <= frames && (frames != [] ==> frames[|frames| - 1].Load?)
    ensures Loads(sent) <= Loads(frames)
    ensures sent != frames ==> |Loads(sent)| < |Loads(frames)|
  {
    var rest := frames[|sent|..];
    assert frames == sent + rest;
    LoadsConcat(sent, rest);
    if rest != [] {
      assert rest[|rest| - 1] == frames[|frames| - 1];
      LoadAtEnd(rest);
    }
  }

  lemma LoadAtEnd(fs: seq<Frame>)
    requires fs != [] && fs[|fs| - 1].Load?
    ensures Loads(fs) != []
  {
  }

  lemma DispatchDelivers(line: Line, st: State, s: Schedule)
    requires line.Valid()
    ensures var frames := Expand(line.Sending(), s.slots, st.carry).frames;
            var sent := Loads(Dispatch(line, st, s).wire);
            var all := Loads(st.wire) + Survivors(s.slots);
            && Loads(st.wire) <= sent <= all
            && (sent == all <==> Flushes(s.slots) || |frames| % 64 == 0)
  {
    var frames := Expand(line.Sending(), s.slots, st.carry).frames;
    var sent := HandedOver(s.slots, frames);
    HandedOverAllIff(s.slots, frames);
    ExpandConserves(line.Sending(), s.slots, st.carry);
    EndsWithLoad(line.Sending(), s.slots, st.carry);
    LoadsOfPrefix(frames, sent);
    LoadsConcat(st.wire, sent);
  }

  /** Of what a round accepts, a prefix reaches the wire, and all of it if and
      only if the round is complete. */
  lemma RoundDelivers(line: Line, st: State, pkts: seq<Packet>)
    requires line.Valid()
    ensures var accepted := Survivors(Plan(line, pkts, st.offset).slots);
            var sent := Loads(Round(line, st, pkts).wire);
            && Loads(st.wire) <= sent <= Loads(st.wire) + accepted
            && (sent == Loads(st.wire) + accepted <==> Complete(line, st, pkts))
  {
    if pkts == [] {
      IdleLoads(IDLE_BATCH, IDLE_SIZE);
      LoadsConcat(st.wire, IdleFrames(IDLE_BATCH, IDLE_SIZE));
    } else {
      FlushesIff(line, st.offset, pkts);
      DispatchDelivers(line, st, Plan(line, pkts, st.offset));
    }
  }

  /** The packets of a run that are not dropped, in order. */
  function Accepted(line: Line, rounds: seq<seq<Packet>>): seq<Packet>
    requires line.Valid()
  {
    if rounds == [] then []
    else
      var front := rounds[..|rounds| - 1];
      Accepted(line, front)
      + Survivors(Plan(line, rounds[|rounds| - 1], Run(line, Start(line), front).offset).slots)
  }

  /** The packets of a batch that are sent keep their order: one in slot `i` has
      the place of those before it. */
  lemma {:induction false} SurvivorAt(slots: seq<Slot>, i: nat)
    requires i < |slots| && slots[i].Full?
    ensures |Survivors(slots[..i])| < |Survivors(slots)|
    ensures Survivors(slots)[|Survivors(slots[..i])|] == slots[i].pkt
  {
    var n := |slots| - 1;
    if i < n {
      SurvivorAt(slots[..n], i);
      assert slots[..n][..i] == slots[..i];
    }
  }

  lemma {:induction false} SurvivorSlot(slots: seq<Slot>, w: Packet) returns (j: nat)
    requires w in Survivors(slots)
    ensures j < |slots| && slots[j] == Full(w)
  {
    var n := |slots| - 1;
    if slots[n] == Full(w) {
      j := n;
    } else {
      j := SurvivorSlot(slots[..n], w);
    }
  }

  /** Packet `i` of round `r` is at most 100000 ns late when its turn comes. */
  predicate InTime(line: Line, rounds: seq<seq<Packet>>, r: nat, i: nat)
    requires line.Valid() && r < |rounds| && i < |rounds[r]|
  {
    Punctual(line, rounds[r], Run(line, Start(line), rounds[..r]).offset, i)
  }

  /** `w` is the packet `p`, with its launch time remembered. */
  predicate Stays(w: Packet, p: Packet) { w.id == p.id && w.len == p.len && w.goal == p.stamp }

  /** The accepted packet behind those of earlier rounds and earlier in its own. */
  function Place(line: Line, rounds: seq<seq<Packet>>, r: nat, i: nat): nat
    requires line.Valid() && r < |rounds| && i < |rounds[r]|
  {
    var front := rounds[..r];
    |Accepted(line, front)|
    + |Survivors(Plan(line, rounds[r], Run(line, Start(line), front).offset).slots[..i])|
  }

  lemma {:induction false} AcceptedGrows(line: Line, rounds: seq<seq<Packet>>, r: nat)
    requires line.Valid() && r <= |rounds|
    ensures Accepted(line, rounds[..r]) <= Accepted(line, rounds)
  {
    if r < |rounds| {
      var front := rounds[..|rounds| - 1];
      AcceptedGrows(line, front, r);
      assert front[..r] == rounds[..r];
    } else {
      assert rounds[..r] == rounds;
    }
  }

  lemma PunctualSurvives(line: Line, pkts: seq<Packet>, offset: nat, i: nat, sent: seq<Packet>, k: nat)
    requires line.Valid() && i < |pkts| && Punctual(line, pkts, offset, i)
    requires sent == Survivors(Plan(line, pkts, offset).slots)
    requires k == |Survivors(Plan(line, pkts, offset).slots[..i])|
    ensures k < |sent| && Stays(sent[k], pkts[i])
  {
    SentIff(line, pkts, offset, i);
    PlanKeepsPackets(line, pkts, offset, i);
    SurvivorAt(Plan(line, pkts, offset).slots, i);
  }

  lemma AcceptedMore(line: Line, rounds: seq<seq<Packet>>, r: nat, sent: seq<Packet>)
    requires line.Valid() && r < |rounds|
    requires sent == Survivors(Plan(line, rounds[r], Run(line, Start(line), rounds[..r]).offset).slots)
    ensures Accepted(line, rounds[..r]) + sent <= Accepted(line, rounds)
  {
    assert rounds[..r + 1][..r] == rounds[..r];
    AcceptedGrows(line, rounds, r + 1);
  }

  /** In every run, a packet that is at most 100000 ns late is accepted, behind
      the packets that were accepted before it. */
  lemma InTimeAccepted(line: Line, rounds: seq<seq<Packet>>, r: nat, i: nat)
    requires line.Valid() && r < |rounds| && i < |rounds[r]| && InTime(line, rounds, r, i)
    ensures var k := Place(line, rounds, r, i);
            k < |Accepted(line, rounds)| && Stays(Accepted(line, rounds)[k], rounds[r][i])
  {
    var offset := Run(line, Start(line), rounds[..r]).offset;
    var slots := Plan(line, rounds[r], offset).slots;
    PunctualSurvives(line, rounds[r], offset, i, Survivors(slots), |Survivors(slots[..i])|);
    AcceptedMore(line, rounds, r, Survivors(slots));
  }

  /** And every packet that was accepted came in some round, in time. */
  lemma {:induction false} AcceptedInTime(line: Line, rounds: seq<seq<Packet>>, w: Packet) returns (r: nat, i: nat)
    requires line.Valid() && w in Accepted(line, rounds)
    ensures r < |rounds| && i < |rounds[r]| && Stays(w, rounds[r][i]) && InTime(line, rounds, r, i)
  {
    var n := |rounds| - 1;
    var front := rounds[..n];
    if w in Accepted(line, front) {
      r, i := AcceptedInTime(line, front, w);
      assert front[..r] == rounds[..r];
    } else {
      var offset := Run(line, Start(line), front).offset;
      r := n;
      i := SurvivorSlot(Plan(line, rounds[n], offset).slots, w);
      PlanKeepsPackets(line, rounds[n], offset, i);
      SentIff(line, rounds[n], offset, i);
    }
  }

  /** No two packets of a run have the same identifier. */
  predicate DistinctIds(rounds: seq<seq<Packet>>) {
    forall r, i, q, j ::
      0 <= r < |rounds| && 0 <= i < |rounds[r]| && 0 <= q < |rounds| && 0 <= j < |rounds[q]| ==>
        rounds[r][i].id == rounds[q][j].id ==> r == q && i == j
  }

  /** So a packet is accepted if and only if it is at most 100000 ns late. */
  lemma AcceptedIff(line: Line, rounds: seq<seq<Packet>>, r: nat, i: nat)
    requires line.Valid() && r < |rounds| && i < |rounds[r]| && DistinctIds(rounds)
    ensures (exists w :: w in Accepted(line, rounds) && Stays(w, rounds[r][i])) <==> InTime(line, rounds, r, i)
  {
    if InTime(line, rounds, r, i) {
      InTimeAccepted(line, rounds, r, i);
    }
    if w :| w in Accepted(line, rounds) && Stays(w, rounds[r][i]) {
      var q, j := AcceptedInTime(line, rounds, w);
    }
  }

  lemma PrefixesMeet<T>(a: seq<T>, b: seq<T>, x: seq<T>, y: seq<T>)
    requires |a| <= |b| && a <= x <= a + y
    ensures |x| <= |b + y|
    ensures x == b + y <==> a == b && x == a + y
  {
    if x == b + y {
      assert a == x[..|a|] == b;
    }
  }

  /** The wire carries exactly the packets that were not dropped, in order, if
      and only if every round of the run is complete. */
  lemma {:induction false} RunDeliversIff(line: Line, rounds: seq<seq<Packet>>)
    requires line.Valid()
    ensures var sent := Loads(Run(line, Start(line), rounds).wire);
            && |sent| <= |Accepted(line, rounds)|
            && (sent == Accepted(line, rounds) <==> RunComplete(line, Start(line), rounds))
  {
    if rounds == [] {
      IdleRunLoads(1 + WARMUP);
    } else {
      var front := rounds[..|rounds| - 1];
      var st := Run(line, Start(line), front);
      var last := rounds[|rounds| - 1];
      RunDeliversIff(line, front);
      RoundDelivers(line, st, last);
      PrefixesMeet(Loads(st.wire), Accepted(line, front), Loads(Round(line, st, last).wire),
                   Survivors(Plan(line, last, st.offset).slots));
    }
  }

  /** Rounds in which nothing is received. */
  function Quiet(k: nat): (rounds: seq<seq<Packet>>)
    ensures |rounds| == k && forall i :: 0 <= i < k ==> rounds[i] == []
  {
    if k == 0 then [] else Quiet(k - 1) + [[]]
  }

  /** Idle batches are 64 frames of 1500 bytes. */
  lemma {:induction false} IdleRunBytes(overhead: nat, k: nat)
    ensures |IdleRun(k)| == 64 * k && Bytes(overhead, IdleRun(k)) == Mul(k, 64 * (1500 + overhead))
  {
    if k > 0 {
      IdleRunBytes(overhead, k - 1);
      IdleBytes(overhead, IDLE_BATCH, IDLE_SIZE);
      BytesConcat(overhead, IdleRun(k - 1), IdleFrames(IDLE_BATCH, IDLE_SIZE));
    }
  }

  lemma CalibratedAt(line: Line)
    ensures Start(line).offset == 101 * (64 * (1500 + line.overhead))
  {
    IdleRunBytes(line.overhead, 1 + WARMUP);
    MulIsProduct(1 + WARMUP, 64 * (1500 + line.overhead));
  }

  lemma {:induction false} QuietSteps(line: Line, k: nat)
    requires line.Valid()
    ensures Run(line, Start(line), Quiet(k)).offset == Start(line).offset + Mul(k, 64 * (1500 + line.overhead))
  {
    if k > 0 {
      QuietSteps(line, k - 1);
      assert Quiet(k)[..k - 1] == Quiet(k - 1);
      IdleBytes(line.overhead, IDLE_BATCH, IDLE_SIZE);
    }
  }

  /** A calibrated line starts 101 idle batches behind its timestamped frame, and
      every round in which nothing is received moves it by one more. */
  lemma QuietMoves(line: Line, k: nat)
    requires line.Valid()
    ensures Run(line, Start(line), Quiet(k)).offset
            == 101 * (64 * (1500 + line.overhead)) + k * (64 * (1500 + line.overhead))
  {
    CalibratedAt(line);
    QuietSteps(line, k);
    MulIsProduct(k, 64 * (1500 + line.overhead));
  }

  lemma QuietMovesOn(line: Line, k: nat)
    requires line.Valid()
    ensures Run(line, Start(line), Quiet(k)).offset >= k
  {
    QuietSteps(line, k);
    MulGrows(k, 64 * (1500 + line.overhead));
  }

  lemma {:induction false} MulGrows(n: nat, x: int)
    requires x >= 1
    ensures Mul(n, x) >= n
  {
    if n > 0 {
      MulGrows(n - 1, x);
    }
  }

  /** In front of a packet, a gap is filled with as few frames of up to 9000 bytes
      as possible. */
  lemma SendingFills(line: Line, gap: nat)
    requires line.Valid() && line.MinWire() <= 4500 && line.MinWire() <= gap
    ensures Remainder(line.Sending(), gap) == 0
    ensures AllWithin(Fillers(line.Sending(), gap), line.MinWire(), 9000)
    ensures IsCeilDiv(|Fillers(line.Sending(), gap)|, gap, 9000)
  {
    FillersExact(line.Sending(), gap);
  }

  /** Every line has a run that loses a packet it accepted: wait until the clock
      allows a packet to be too late, then receive a pair as above. */
  lemma LossyRun(line: Line) returns (rounds: seq<seq<Packet>>)
    requires line.Valid()
    ensures forall i :: 0 <= i < |rounds| ==> |rounds[i]| <= 64
    ensures !RunComplete(line, Start(line), rounds)
    ensures Loads(Run(line, Start(line), rounds).wire) != Accepted(line, rounds)
    ensures line.overhead >= 1 ==> Run(line, Start(line), rounds).lost > 0
  {
    var k := GapBytes(line.ns, 100001) + 1;
    var time := LateEnough(line, k);
    var pair := [Packet(0, 60, time, 0, false), Packet(1, 60, 0, 0, false)];
    RunSynchronous(line, Quiet(k));
    PairIsLost(line, Run(line, Start(line), Quiet(k)), pair[0], pair[1]);
    IncompleteAfter(line, Quiet(k), pair);
    rounds := Quiet(k) + [pair];
  }

  /** After that many quiet rounds a packet can be too late. */
  lemma LateEnough(line: Line, k: nat) returns (time: nat)
    requires line.Valid() && k == GapBytes(line.ns, 100001) + 1
    ensures time == line.TimeAt(Run(line, Start(line), Quiet(k)).offset).Floor > 100000
  {
    var offset := Run(line, Start(line), Quiet(k)).offset;
    QuietMovesOn(line, k);
    FloorQuotient(100001.0, line.ns, k - 1);
    TimesOrder(k, offset, line.ns);
    time := line.TimeAt(offset).Floor;
  }

  lemma IncompleteAfter(line: Line, front: seq<seq<Packet>>, last: seq<Packet>)
    requires line.Valid() && !Complete(line, Run(line, Start(line), front), last)
    ensures var rounds := front + [last];
            && !RunComplete(line, Start(line), rounds)
            && Loads(Run(line, Start(line), rounds).wire) != Accepted(line, rounds)
            && (line.overhead >= 1 ==> Run(line, Start(line), rounds).lost > 0)
  {
    var rounds := front + [last];
    assert rounds[..|rounds| - 1] == front;
    RunDeliversIff(line, rounds);
    RunLosslessIff(line, Start(line), rounds);
  }

  /** The promise of the emulator, frame by frame: for runs that are complete,
      the packet at any place on the wire starts within the length of the
      smallest filled gap before its launch time, and no later than promised. */
  lemma LaunchTimeAccuracy(line: Line, rounds: seq<seq<Packet>>, k: nat)
    requires line.Valid() && RunComplete(line, Start(line), rounds)
    requires var wire := Run(line, Start(line), rounds).wire; k < |wire| && wire[k].Load?
    ensures var wire := Run(line, Start(line), rounds).wire;
            && wire[k].pkt in Accepted(line, rounds)
            && WithinPromise(line, Bytes(line.overhead, wire[..k]), wire[k].pkt)
  {
    RunAccurate(line, rounds);
    RunDeliversIff(line, rounds);
    RunLosslessIff(line, Start(line), rounds);
    var wire := Run(line, Start(line), rounds).wire;
    AccurateAt(line, wire, k);
    PromiseKept(line, Bytes(line.overhead, wire[..k]), wire[k].pkt);
  }

  /** The promise for a packet whose first byte is at position `start`. */
  predicate WithinPromise(line: Line, start: nat, p: Packet) {
    var time := line.first as real + start as real * line.ns;
    && p.goal as real - line.MinWire() as real * line.ns < time
    && time < p.goal as real + (if p.late then 100001.0 else 1.0)
  }

  lemma PromiseKept(line: Line, start: nat, p: Packet)
    requires InWindow(line, start, p, 0)
    ensures WithinPromise(line, start, p)
  {
    TimesIsProduct(start, line.ns);
    TimesIsProduct(line.MinWire(), line.ns);
  }

  lemma AccurateAt(line: Line, wire: seq<Frame>, k: nat)
    requires Accurate(line, Launches(line.overhead, 0, wire), 0)
    requires k < |wire| && wire[k].Load?
    ensures InWindow(line, Bytes(line.overhead, wire[..k]), wire[k].pkt, 0)
    ensures wire[k].pkt in Loads(wire)
  {
    LaunchesAreLoads(line.overhead, 0, wire);
    LaunchAt(line.overhead, 0, wire, k);
    var launches := Launches(line.overhead, 0, wire);
    var l := Launch(Bytes(line.overhead, wire[..k]), wire[k].pkt);
    assert l in launches;
    var i :| 0 <= i < |launches| && launches[i] == l;
    assert InWindow(line, launches[i].start, launches[i].pkt, 0);
    assert Loads(wire)[i] == l.pkt;
  }

  // ---------------------------------------------------------------- the class

  class DelayEmulator {
    const ratelimiter: RateLimiterCRC
    const nanosecondsPerByte: real
    const packetOverhead: nat
    var firstTimestamp: nat
    var currentByteOffset: nat
    /** Bytes that were planned but never handed over. */
    ghost var lost: nat

    constructor (ratelimiter: RateLimiterCRC, lineRate: nat, packetOverhead: nat)
      requires lineRate > 0
      ensures this.ratelimiter == ratelimiter && this.packetOverhead == packetOverhead
      ensures nanosecondsPerByte * lineRate as real == 8000.0
    {
      this.ratelimiter := ratelimiter;
      this.nanosecondsPerByte := 0.08 * (100000.0 / lineRate as real);
      this.packetOverhead := packetOverhead;
      firstTimestamp, currentByteOffset := 0, 0;
      lost := 0;
    }

    ghost function Calibrated(): Line
      reads this
    {
      Line(firstTimestamp, nanosecondsPerByte, ratelimiter.minPacketSize, packetOverhead)
    }

    ghost predicate Valid()
      reads this
    {
      Calibrated().Valid() && ratelimiter.packetOverhead == packetOverhead
    }

    /** What is on the wire from the timestamped frame on. */
    ghost function View(): State
      reads this, ratelimiter
    {
      var wire := Flat(ratelimiter.batches);
      State(currentByteOffset, ratelimiter.previousMissingDelay,
                  if ratelimiter.marked <= |wire| then wire[ratelimiter.marked..] else [], lost)
    }

    /** One packet of the first pass: its slot, with the launch time replaced by
        a gap, or empty if the packet is dropped. */
    method PlanPacket(pkt: Packet, ghost before: seq<Slot>) returns (slot: Slot)
      requires Valid()
      modifies this`currentByteOffset
      ensures Schedule(before + [slot], currentByteOffset)
              == PlanOne(Calibrated(), Schedule(before, old(currentByteOffset)), pkt)
      ensures Judged(Calibrated(), old(currentByteOffset), pkt, slot, currentByteOffset)
    {
      PlanOneJudged(Calibrated(), Schedule(before, currentByteOffset), pkt);
      var currentSendingTime := SendingTime(firstTimestamp, nanosecondsPerByte, currentByteOffset);
      var goalSendingTime := pkt.stamp;
      var sendingTimeDiff := goalSendingTime - currentSendingTime;
      if sendingTimeDiff < 0 {
        if sendingTimeDiff < -MAX_LATE {
          return Null;
        }
        slot := Full(pkt.(stamp := 0, goal := goalSendingTime, late := true));
        currentByteOffset := currentByteOffset + pkt.len + packetOverhead;
        return;
      }
      var delayBytes := GapBytes(nanosecondsPerByte, sendingTimeDiff);
      slot := Full(pkt.(stamp := delayBytes, goal := goalSendingTime, late := false));
      currentByteOffset := currentByteOffset + pkt.len + packetOverhead + delayBytes;
    }

    /** The first pass over a batch: launch times become gaps, in place. */
    method PlanBatch(load: array<Slot>, numPkts: nat)
      requires Valid() && numPkts <= load.Length
      requires forall i :: 0 <= i < numPkts ==> load[i].Full?
      modifies this`currentByteOffset, load
      ensures Schedule(load[..numPkts], currentByteOffset)
              == Plan(Calibrated(), old(Survivors(load[..numPkts])), old(currentByteOffset))
      ensures BatchJudged(Calibrated(), old(Survivors(load[..numPkts])), old(currentByteOffset), load[..numPkts])
    {
      ghost var pkts := Survivors(load[..numPkts]);
      AllSurvive(load[..numPkts]);
      ghost var line, planned := Calibrated(), [];
      for i := 0 to numPkts
        invariant Calibrated() == line && load[..i] == planned
        invariant Plan(line, pkts[..i], old(currentByteOffset)) == Schedule(planned, currentByteOffset)
        invariant forall j :: i <= j < numPkts ==> load[j] == Full(pkts[j])
      {
        PlanMore(line, pkts, old(currentByteOffset), i);
        var slot := PlanPacket(load[i].pkt, planned);
        load[i] := slot;
        planned := planned + [slot];
      }
      assert pkts[..numPkts] == pkts;
      PlanBatchJudged(line, pkts, old(currentByteOffset));
    }

    /** The second pass over a batch. */
    method DispatchBatch(load: array<Slot>, numPkts: nat)
      requires Valid() && numPkts <= load.Length
      requires ratelimiter.invalidPacketSize == SEND_SIZE
      requires ratelimiter.marked <= |Flat(ratelimiter.batches)|
      modifies this`lost
      modifies ratelimiter`previousMissingDelay, ratelimiter`batches, ratelimiter`badPkts, ratelimiter`badBytes
      ensures ratelimiter.marked <= |Flat(ratelimiter.batches)|
      ensures View() == Dispatch(Calibrated(), old(View()), Schedule(load[..numPkts], currentByteOffset))
    {
      ratelimiter.SendPackets(load, numPkts);
      ghost var slots := load[..numPkts];
      ghost var frames := Expand(Calibrated().Sending(), slots, old(ratelimiter.previousMissingDelay)).frames;
      lost := lost + Bytes(packetOverhead, frames[|HandedOver(slots, frames)|..]);
      ghost var before := old(ratelimiter.batches);
      FlatTail(ratelimiter.batches, before, ratelimiter.batches[|before|..], ratelimiter.marked);
    }

    method SendBatch(load: array<Slot>, numPkts: nat)
      requires Valid() && 1 <= numPkts <= load.Length
      requires ratelimiter.invalidPacketSize == SEND_SIZE
      requires ratelimiter.marked <= |Flat(ratelimiter.batches)|
      requires forall i :: 0 <= i < numPkts ==> load[i].Full?
      modifies this`currentByteOffset, this`lost, load
      modifies ratelimiter`previousMissingDelay, ratelimiter`batches, ratelimiter`badPkts, ratelimiter`badBytes
      ensures ratelimiter.marked <= |Flat(ratelimiter.batches)|
      ensures View() == Round(Calibrated(), old(View()), old(Survivors(load[..numPkts])))
      ensures BatchJudged(Calibrated(), old(Survivors(load[..numPkts])), old(currentByteOffset), load[..numPkts])
    {
      AllSurvive(load[..numPkts]);
      PlanBatch(load, numPkts);
      DispatchBatch(load, numPkts);
    }

    /** Keeps the line busy for one round. */
    method Idle()
      requires Valid()
      requires ratelimiter.marked <= |Flat(ratelimiter.batches)|
      modifies this`currentByteOffset, ratelimiter`batches, ratelimiter`invalidPacketSize
      ensures ratelimiter.marked <= |Flat(ratelimiter.batches)|
      ensures View() == Idled(Calibrated(), old(View()))
      ensures ratelimiter.invalidPacketSize == 1500
      ensures currentByteOffset == old(currentByteOffset) + 64 * (1500 + packetOverhead)
    {
      IdleBytes(packetOverhead, IDLE_BATCH, IDLE_SIZE);
      ratelimiter.SetInvalidPacketSize(IDLE_SIZE);
      var bytes := ratelimiter.EmptyDelay(IDLE_BATCH);
      currentByteOffset := currentByteOffset + bytes;
      ghost var idle := IdleFrames(IDLE_BATCH, IDLE_SIZE);
      FlatTail(ratelimiter.batches, old(ratelimiter.batches), [idle], ratelimiter.marked);
      assert Flat([idle]) == idle by {
        assert [idle][..0] == [];
      }
    }

    /** Sends the timestamped frame and fillers until it has left. */
    method SendTimestamped()
      requires Valid() && ratelimiter.invalidPacketSize == IDLE_SIZE
      modifies this`currentByteOffset, ratelimiter`batches, ratelimiter`marked
      ensures ratelimiter.marked <= |Flat(ratelimiter.batches)|
      ensures ratelimiter.marked == |Flat(old(ratelimiter.batches))|
      ensures Flat(ratelimiter.batches)[ratelimiter.marked..] == Start(Calibrated()).wire
      ensures currentByteOffset == Start(Calibrated()).offset
    {
      ghost var before := Flat(ratelimiter.batches);
      currentByteOffset := ratelimiter.SendTimestampPacket(IDLE_BATCH);
      IdleRunStep(old(ratelimiter.batches), before, 0, packetOverhead);
      for i := 0 to WARMUP
        invariant ratelimiter.marked == |before| && ratelimiter.invalidPacketSize == IDLE_SIZE
        invariant Flat(ratelimiter.batches) == before + IdleRun(1 + i)
        invariant currentByteOffset == Bytes(packetOverhead, IdleRun(1 + i))
      {
        FillMore(before, 1 + i);
      }
    }

    /** One more batch of fillers while the timestamped frame is under way. */
    method FillMore(ghost before: seq<Frame>, ghost k: nat)
      requires Valid() && ratelimiter.invalidPacketSize == IDLE_SIZE
      requires Flat(ratelimiter.batches) == before + IdleRun(k)
      requires currentByteOffset == Bytes(packetOverhead, IdleRun(k))
      modifies this`currentByteOffset, ratelimiter`batches
      ensures Flat(ratelimiter.batches) == before + IdleRun(k + 1)
      ensures currentByteOffset == Bytes(packetOverhead, IdleRun(k + 1))
    {
      IdleRunStep(ratelimiter.batches, before, k, packetOverhead);
      var more := ratelimiter.EmptyDelay(IDLE_BATCH);
      currentByteOffset := currentByteOffset + more;
    }

    /** Fills the line and calibrates it; `timestamp` is what the card reports
        for the timestamped frame. */
    method Calibrate(timestamp: nat)
      requires Valid() && ratelimiter.previousMissingDelay == 0
      modifies this`currentByteOffset, this`firstTimestamp, this`lost
      modifies ratelimiter`batches, ratelimiter`invalidPacketSize, ratelimiter`marked
      ensures Valid() && firstTimestamp == timestamp
      ensures ratelimiter.marked <= |Flat(ratelimiter.batches)|
      ensures View() == Start(Calibrated())
      ensures ratelimiter.marked == |Flat(old(ratelimiter.batches))| + 6400
    {
      ratelimiter.SetInvalidPacketSize(IDLE_SIZE);
      ghost var before := Flat(ratelimiter.batches);
      for i := 0 to WARMUP
        invariant ratelimiter.invalidPacketSize == IDLE_SIZE
        invariant |Flat(ratelimiter.batches)| == |before| + 64 * i
      {
        var _ := ratelimiter.EmptyDelay(IDLE_BATCH);
      }
      SendTimestamped();
      firstTimestamp := timestamp;
      lost := 0;
    }

    /** One round: sends what the packet ring returned, or keeps the line busy. */
    method TransmitRound(transmitPkts: array<Slot>, rx: seq<Packet>)
      requires Valid() && |rx| <= transmitPkts.Length
      requires ratelimiter.marked <= |Flat(ratelimiter.batches)|
      modifies this`currentByteOffset, this`lost, ratelimiter, transmitPkts
      ensures ratelimiter.marked <= |Flat(ratelimiter.batches)|
      ensures View() == Round(Calibrated(), old(View()), rx)
      ensures ratelimiter.invalidPacketSize == (if |rx| > 0 then 9000 else 1500)
    {
      if |rx| > 0 {
        forall j | 0 <= j < |rx| {
          transmitPkts[j] := Full(rx[j]);
        }
        AllSurvive(transmitPkts[..|rx|]);
        assert Survivors(transmitPkts[..|rx|]) == rx;
        ratelimiter.SetInvalidPacketSize(SEND_SIZE);
        SendBatch(transmitPkts, |rx|);
      } else {
        Idle();
      }
    }

    /** The whole transmit loop.  `timestamp` is the card's report, and `rounds`
        what the packet ring returned, round by round, until the program stops. */
    method TransmitLoop(timestamp: nat, rounds: seq<seq<Packet>>)
      requires Valid() && ratelimiter.previousMissingDelay == 0
      requires forall i :: 0 <= i < |rounds| ==> |rounds[i]| <= TRANSMIT_BUFFER_SIZE
      modifies this, ratelimiter
      ensures firstTimestamp == timestamp && Valid()
      ensures View() == Run(Calibrated(), Start(Calibrated()), rounds)
    {
      Calibrate(timestamp);
      TransmitRounds(rounds);
    }

    /** The endless loop, as far as it has come. */
    method TransmitRounds(rounds: seq<seq<Packet>>)
      requires Valid() && ratelimiter.marked <= |Flat(ratelimiter.batches)|
      requires forall i :: 0 <= i < |rounds| ==> |rounds[i]| <= TRANSMIT_BUFFER_SIZE
      modifies this`currentByteOffset, this`lost, ratelimiter
      ensures Valid() && ratelimiter.marked <= |Flat(ratelimiter.batches)|
      ensures View() == Run(Calibrated(), old(View()), rounds)
    {
      var transmitPkts := new Slot[TRANSMIT_BUFFER_SIZE];
      ghost var line, start := Calibrated(), View();
      for i := 0 to |rounds|
        invariant Valid() && ratelimiter.marked <= |Flat(ratelimiter.batches)|
        invariant View() == Run(line, start, rounds[..i])
      {
        RunStep(line, start, rounds, i);
        TransmitRound(transmitPkts, rounds[i]);
      }
      assert rounds[..|rounds|] == rounds;
    }
  }

  /** What is handed over goes to the end of the wire. */
  lemma FlatTail(all: seq<seq<Frame>>, before: seq<seq<Frame>>, more: seq<seq<Frame>>, marked: nat)
    requires all == before + more && marked <= |Flat(before)|
    ensures marked <= |Flat(all)| && Flat(all)[marked..] == Flat(before)[marked..] + Flat(more)
  {
    FlatConcat(before, more);
  }

  lemma IdleRunStep(batches: seq<seq<Frame>>, before: seq<Frame>, k: nat, overhead: nat)
    requires Flat(batches) == before + IdleRun(k)
    ensures Flat(batches + [IdleFrames(IDLE_BATCH, IDLE_SIZE)]) == before + IdleRun(k + 1)
    ensures Bytes(overhead, IdleRun(k + 1))
            == Bytes(overhead, IdleRun(k)) + Bytes(overhead, IdleFrames(IDLE_BATCH, IDLE_SIZE))
  {
    var idle := IdleFrames(IDLE_BATCH, IDLE_SIZE);
    assert (batches + [idle])[..|batches|] == batches;
    BytesConcat(overhead, IdleRun(k), idle);
  }

  lemma {:induction false} AllSurvive(slots: seq<Slot>)
    requires forall i :: 0 <= i < |slots| ==> slots[i].Full?
    ensures |Survivors(slots)| == |slots|
    ensures forall i :: 0 <= i < |slots| ==> Survivors(slots)[i] == slots[i].pkt
  {
    if slots != [] {
      AllSurvive(slots[..|slots| - 1]);
    }
  }
}
