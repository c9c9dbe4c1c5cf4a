/**
 The ring between a software receiver and its transmitter (src/moonem_sw.cpp).

 The receiver reads a burst and the clock, decides which packets to pass on,
 stamps them with a release time and with the number of packets that are to be
 sent together, and adds them to the ring all together or not at all.  The
 transmitter takes up to 64 packets, which may end within a burst, waits for the
 first one and sends its burst without looking at the others.

 One clock is shared; it never goes back.  Steps of the two threads interleave
 freely.  What a receiver decides is a parameter of the machine.
 */
module DelayRing {
  import opened Integers
  import Stages

  /** A packet for the transmitter; the stamp of the buffer is the release time.
      `received` is history: the receiver's reading of the clock. */
  datatype Packet = Packet(pkt: Stages.Pkt, received: nat, burst: nat) {
    function Release(): nat { pkt.stamp }
  }

  /** A packet and the time at which it was sent. */
  datatype Send = Send(pkt: Packet, time: nat)

  // ---------------------------------------------------------------- bursts

  /** Every packet that is sent together with a packet is due no later, and its
      own burst ends no later. */
  predicate Linked(ps: seq<Packet>) {
    forall i, j :: 0 <= i <= j < |ps| && j < i + ps[i].burst ==>
      ps[j].Release() <= ps[i].Release() && j + ps[j].burst <= i + ps[i].burst
  }

  /** Bursts are not empty and end within the sequence. */
  predicate Closed(ps: seq<Packet>) {
    forall i :: 0 <= i < |ps| ==> 1 <= ps[i].burst <= |ps| - i
  }

  predicate Positive(ps: seq<Packet>) {
    forall i :: 0 <= i < |ps| ==> 1 <= ps[i].burst
  }

  predicate WellFormed(ps: seq<Packet>) { Linked(ps) && Closed(ps) }

  /** The release of every packet is at least `delay` after its receipt. */
  predicate Delayed(ps: seq<Packet>, delay: nat) {
    forall i :: 0 <= i < |ps| ==> ps[i].received + delay <= ps[i].Release()
  }

  /** What the delay and token-bucket receivers enqueue: one release time, and
      the packets that are left. */
  function Stamped(ps: seq<Stages.Pkt>, time: nat, delay: nat): (qs: seq<Packet>)
    ensures |qs| == |ps|
    ensures forall i :: 0 <= i < |ps| ==> qs[i] == Packet(ps[i].(stamp := time + delay), time, |ps| - i)
  {
    seq(|ps|, i requires 0 <= i < |ps| => Packet(ps[i].(stamp := time + delay), time, |ps| - i))
  }

  lemma StampedWellFormed(ps: seq<Stages.Pkt>, time: nat, delay: nat)
    ensures WellFormed(Stamped(ps, time, delay)) && Delayed(Stamped(ps, time, delay), delay)
  {
  }

  /** What the leaky-bucket receiver enqueues: bursts of one, with the release
      times it has computed. */
  function Singles(ps: seq<Stages.Pkt>, time: nat): (qs: seq<Packet>)
    ensures |qs| == |ps|
    ensures forall i :: 0 <= i < |ps| ==> qs[i] == Packet(ps[i], time, 1)
  {
    seq(|ps|, i requires 0 <= i < |ps| => Packet(ps[i], time, 1))
  }

  lemma SinglesWellFormed(ps: seq<Stages.Pkt>, time: nat, delay: nat)
    requires forall i :: 0 <= i < |ps| ==> time + delay <= ps[i].stamp
    ensures WellFormed(Singles(ps, time)) && Delayed(Singles(ps, time), delay)
  {
  }

  /** The buffers alone. */
  function Buffers(ps: seq<Packet>): (bs: seq<Stages.Pkt>)
    ensures |bs| == |ps| && forall i :: 0 <= i < |ps| ==> bs[i] == ps[i].pkt
  {
    seq(|ps|, i requires 0 <= i < |ps| => ps[i].pkt)
  }

  lemma LinkedSlice(ps: seq<Packet>, lo: nat, hi: nat)
    requires Linked(ps) && lo <= hi <= |ps|
    ensures Linked(ps[lo..hi])
  {
    var qs := ps[lo..hi];
    forall i, j | 0 <= i <= j < |qs| && j < i + qs[i].burst
      ensures qs[j].Release() <= qs[i].Release() && j + qs[j].burst <= i + qs[i].burst
    {
      assert qs[i] == ps[lo + i] && qs[j] == ps[lo + j];
    }
  }

  lemma ClosedTail(ps: seq<Packet>, lo: nat)
    requires Closed(ps) && lo <= |ps|
    ensures Closed(ps[lo..])
  {
    forall i | 0 <= i < |ps| - lo ensures 1 <= ps[lo..][i].burst <= |ps| - lo - i {
      assert ps[lo..][i] == ps[lo + i];
    }
  }

  lemma WellFormedConcat(a: seq<Packet>, b: seq<Packet>)
    requires WellFormed(a) && WellFormed(b)
    ensures WellFormed(a + b)
  {
    var c := a + b;
    forall i, j | 0 <= i <= j < |c| && j < i + c[i].burst
      ensures c[j].Release() <= c[i].Release() && j + c[j].burst <= i + c[i].burst
    {
      if i < |a| {
        assert c[i] == a[i] && c[j] == a[j];
      } else {
        assert c[i] == b[i - |a|] && c[j] == b[j - |a|];
      }
    }
    forall i | 0 <= i < |c| ensures 1 <= c[i].burst <= |c| - i {
      if i >= |a| {
        assert c[i] == b[i - |a|];
      }
    }
  }

  // ---------------------------------------------------------------- the machine

  /** A receiver: what it makes of a burst, given its own state.  With it go the
      state it starts in, the delay it promises and the size of the ring. */
  datatype Emulator<!R> = Emulator(
    receive: (R, Stages.Burst) -> (R, seq<Packet>), start: R, delay: nat, capacity: nat)

  /** A receiver over any number of bursts. */
  function Received<R>(e: Emulator<R>, us: seq<Stages.Burst>): (R, seq<Packet>) {
    if us == [] then (e.start, [])
    else
      var before := Received(e, us[..|us| - 1]);
      var (r, out) := e.receive(before.0, us[|us| - 1]);
      (r, before.1 + out)
  }

  /** What the transmitter relies on, for every burst and from every state. */
  ghost predicate Lawful<R(!new)>(e: Emulator<R>) {
    forall r: R, u: Stages.Burst :: WellFormed(e.receive(r, u).1) && Delayed(e.receive(r, u).1, e.delay)
  }

  /** Where the transmitter is, with the index of its next packet. */
  datatype Transmitter = Idle | Polling(i: nat) | Sending(i: nat)

  /** `held` is what the receiver has yet to enqueue.  The last three fields are
      history: the bursts that were read, and what became of the packets that
      the receiver passed on. */
  datatype State<R> = State(
    clock: nat, rx: R, held: seq<Packet>, ring: seq<Packet>,
    tx: Transmitter, batch: seq<Packet>, sent: seq<Send>,
    arrivals: seq<Stages.Burst>, accepted: seq<Packet>, rejected: seq<Packet>)

  datatype Step =
    | Tick(ticks: nat)
    | Receive(pkts: seq<Stages.Pkt>)
    | Enqueue
    | Dequeue(n: nat)
    | Poll
    | Transmit

  function Start<R>(e: Emulator<R>): State<R> {
    State(0, e.start, [], [], Idle, [], [], [], [], [])
  }

  function Sends(ps: seq<Packet>, time: nat): (ss: seq<Send>)
    ensures |ss| == |ps| && forall i :: 0 <= i < |ps| ==> ss[i] == Send(ps[i], time)
  {
    seq(|ps|, i requires 0 <= i < |ps| => Send(ps[i], time))
  }

  function Packets(ss: seq<Send>): (ps: seq<Packet>)
    ensures |ps| == |ss| && forall i :: 0 <= i < |ss| ==> ps[i] == ss[i].pkt
  {
    seq(|ss|, i requires 0 <= i < |ss| => ss[i].pkt)
  }

  /** Packets that are sent together: a burst, or what was dequeued of it. */
  function Group(batch: seq<Packet>, i: nat): nat
    requires i < |batch|
  {
    Least(batch[i].burst, |batch| - i)
  }

  /** One atomic step.  A step that is not possible changes nothing. */
  function Next<R>(e: Emulator<R>, s: State<R>, step: Step): State<R> {
    match step
    case Tick(ticks) => s.(clock := s.clock + ticks)
    case Receive(pkts) =>
      if s.held == [] && 0 < |pkts| <= Stages.BURST_SIZE then
        var u := Stages.Burst(s.clock, pkts);
        var (r, out) := e.receive(s.rx, u);
        s.(rx := r, held := out, arrivals := s.arrivals + [u])
      else s
    case Enqueue =>
      // packets that do not all fit are rejected as a whole
      if |s.ring| + |s.held| <= e.capacity
      then s.(ring := s.ring + s.held, accepted := s.accepted + s.held, held := [])
      else s.(rejected := s.rejected + s.held, held := [])
    case Dequeue(n) =>
      if s.tx.Idle? && 0 < n <= Stages.BURST_SIZE && n <= |s.ring|
      then s.(batch := s.ring[..n], ring := s.ring[n..], tx := Polling(0)) else s
    case Poll =>
      if s.tx.Polling? && s.tx.i < |s.batch| && s.batch[s.tx.i].Release() <= s.clock
      then s.(tx := Sending(s.tx.i)) else s
    case Transmit =>
      if s.tx.Sending? && s.tx.i < |s.batch| then
        var i := s.tx.i;
        var next := i + Group(s.batch, i);
        s.(sent := s.sent + Sends(s.batch[i..next], s.clock),
           batch := if next < |s.batch| then s.batch else [],
           tx := if next < |s.batch| then Polling(next) else Idle)
      else s
  }

  function Run<R>(e: Emulator<R>, s: State<R>, steps: seq<Step>): State<R> {
    if steps == [] then s
    else Next(e, Run(e, s, steps[..|steps| - 1]), steps[|steps| - 1])
  }

  // ---------------------------------------------------------------- the receiver's side

  /** Everything the receiver passed on is in the ring's history, rejected or
      still held; if nothing was rejected, in the order of arrival. */
  predicate Conserved(out: seq<Packet>, accepted: seq<Packet>, rejected: seq<Packet>, held: seq<Packet>) {
    && multiset(out) == multiset(accepted) + multiset(rejected) + multiset(held)
    && (rejected == [] ==> out == accepted + held)
  }

  predicate ReceiverOk<R(==)>(e: Emulator<R>, s: State<R>) {
    && s.rx == Received(e, s.arrivals).0
    && Conserved(Received(e, s.arrivals).1, s.accepted, s.rejected, s.held)
    && Stages.Ordered(s.arrivals, s.clock)
  }

  lemma OrderedLater(us: seq<Stages.Burst>, now: nat, later: nat)
    requires Stages.Ordered(us, now) && now <= later
    ensures Stages.Ordered(us, later)
  {
  }

  lemma ReceiveKeepsReceiver<R>(e: Emulator<R>, s: State<R>, pkts: seq<Stages.Pkt>)
    requires ReceiverOk(e, s)
    ensures ReceiverOk(e, Next(e, s, Receive(pkts)))
  {
    var us := s.arrivals + [Stages.Burst(s.clock, pkts)];
    assert us[..|us| - 1] == s.arrivals;
    if s.rejected == [] && s.held == [] {
      assert s.accepted + s.held == s.accepted;
    }
  }

  lemma EnqueueConserves(out: seq<Packet>, accepted: seq<Packet>, rejected: seq<Packet>, held: seq<Packet>)
    requires Conserved(out, accepted, rejected, held)
    ensures Conserved(out, accepted + held, rejected, [])
    ensures Conserved(out, accepted, rejected + held, [])
  {
    assert accepted + held + [] == accepted + held;
    if rejected + held == [] {
      assert held == [];
      assert accepted + held == accepted + [];
    }
  }

  lemma StepKeepsReceiver<R>(e: Emulator<R>, s: State<R>, step: Step)
    requires ReceiverOk(e, s)
    ensures ReceiverOk(e, Next(e, s, step))
  {
    match step
    case Tick(ticks) => TickKeepsReceiver(e, s, ticks);
    case Receive(pkts) => ReceiveKeepsReceiver(e, s, pkts);
    case Enqueue => EnqueueKeepsReceiver(e, s);
    case Dequeue(n) => TransmitterLeavesReceiver(e, s, step);
    case Poll => TransmitterLeavesReceiver(e, s, step);
    case Transmit => TransmitterLeavesReceiver(e, s, step);
  }

  lemma TickKeepsReceiver<R>(e: Emulator<R>, s: State<R>, ticks: nat)
    requires ReceiverOk(e, s)
    ensures ReceiverOk(e, Next(e, s, Tick(ticks)))
  {
    OrderedLater(s.arrivals, s.clock, s.clock + ticks);
  }

  lemma EnqueueKeepsReceiver<R>(e: Emulator<R>, s: State<R>)
    requires ReceiverOk(e, s)
    ensures ReceiverOk(e, Next(e, s, Enqueue))
  {
    EnqueueConserves(Received(e, s.arrivals).1, s.accepted, s.rejected, s.held);
  }

  /** The transmitter does not touch the receiver's side. */
  lemma TransmitterLeavesReceiver<R>(e: Emulator<R>, s: State<R>, step: Step)
    requires ReceiverOk(e, s) && (step.Dequeue? || step.Poll? || step.Transmit?)
    ensures ReceiverOk(e, Next(e, s, step))
  {
    TransmitterFrame(e, s, step);
    ReceiverSame(e, s, Next(e, s, step));
  }

  lemma TransmitterFrame<R>(e: Emulator<R>, s: State<R>, step: Step)
    requires step.Dequeue? || step.Poll? || step.Transmit?
    ensures var t := Next(e, s, step);
            && t.clock == s.clock && t.rx == s.rx && t.held == s.held
            && t.arrivals == s.arrivals && t.accepted == s.accepted && t.rejected == s.rejected
  {
  }

  lemma ReceiverSame<R>(e: Emulator<R>, s: State<R>, t: State<R>)
    requires ReceiverOk(e, s) && t.clock == s.clock && t.rx == s.rx && t.held == s.held
    requires t.arrivals == s.arrivals && t.accepted == s.accepted && t.rejected == s.rejected
    ensures ReceiverOk(e, t)
  {
  }

  // ---------------------------------------------------------------- the transmitter's side

  /** What the transmitter holds and has not sent. */
  function Pending<R>(s: State<R>): seq<Packet> {
    if s.tx.Idle? || s.tx.i > |s.batch| then [] else s.batch[s.tx.i..]
  }

  /** Packets leave in the order in which they were added, each at most once. */
  predicate Fifo<R>(s: State<R>) { Packets(s.sent) + Pending(s) + s.ring == s.accepted }

  /** No packet leaves before its own release time. */
  predicate NeverEarly(sent: seq<Send>) {
    forall k :: 0 <= k < |sent| ==> sent[k].pkt.Release() <= sent[k].time
  }

  predicate TransmitterOk<R>(s: State<R>) {
    match s.tx
    case Idle => s.batch == []
    case Polling(i) => i < |s.batch|
    case Sending(i) => i < |s.batch| && s.batch[i].Release() <= s.clock
  }

  predicate RingOk<R>(e: Emulator<R>, s: State<R>) {
    && Fifo(s) && NeverEarly(s.sent) && TransmitterOk(s)
    && WellFormed(s.held) && WellFormed(s.ring) && Linked(s.batch) && Positive(s.batch)
    && Delayed(s.held, e.delay) && Delayed(s.accepted, e.delay)
  }

  lemma EnqueueKeepsRing<R>(e: Emulator<R>, s: State<R>)
    requires RingOk(e, s)
    ensures RingOk(e, Next(e, s, Enqueue))
  {
    WellFormedConcat(s.ring, s.held);
    DelayedConcat(s.accepted, s.held, e.delay);
    EnqueueFifo(Packets(s.sent) + Pending(s), s.ring, s.held);
  }

  lemma DelayedConcat(a: seq<Packet>, b: seq<Packet>, delay: nat)
    requires Delayed(a, delay) && Delayed(b, delay)
    ensures Delayed(a + b, delay)
  {
  }

  lemma EnqueueFifo(before: seq<Packet>, ring: seq<Packet>, held: seq<Packet>)
    ensures before + (ring + held) == before + ring + held
  {
  }

  lemma DequeueFifo(sent: seq<Packet>, ring: seq<Packet>, n: nat)
    requires n <= |ring|
    ensures sent + ring[..n] + ring[n..] == sent + [] + ring
  {
    assert ring[..n] + ring[n..] == ring;
  }

  lemma WellFormedCut(ps: seq<Packet>, n: nat)
    requires WellFormed(ps) && n <= |ps|
    ensures Linked(ps[..n]) && Positive(ps[..n]) && WellFormed(ps[n..])
  {
    LinkedSlice(ps, 0, n);
    LinkedSlice(ps, n, |ps|);
    ClosedTail(ps, n);
  }

  lemma DequeueKeepsRing<R>(e: Emulator<R>, s: State<R>, n: nat)
    requires RingOk(e, s)
    ensures RingOk(e, Next(e, s, Dequeue(n)))
  {
    if n <= |s.ring| {
      WellFormedCut(s.ring, n);
      DequeueFifo(Packets(s.sent), s.ring, n);
    }
  }

  /** A packet that is due is followed only by packets of its burst that are. */
  lemma GroupDue(batch: seq<Packet>, i: nat, clock: nat)
    requires Linked(batch) && i < |batch| && batch[i].Release() <= clock
    ensures forall k :: i <= k < i + Group(batch, i) ==> batch[k].Release() <= clock
  {
  }

  /** Sending a group moves it from the batch to what was sent. */
  lemma GroupSent(sent: seq<Send>, batch: seq<Packet>, i: nat, next: nat, time: nat)
    requires i <= next <= |batch|
    ensures Packets(sent + Sends(batch[i..next], time)) + batch[next..] == Packets(sent) + batch[i..]
  {
    assert batch[i..] == batch[i..next] + batch[next..];
    assert Packets(sent + Sends(batch[i..next], time)) == Packets(sent) + batch[i..next];
  }

  lemma GroupNeverEarly(sent: seq<Send>, group: seq<Packet>, clock: nat)
    requires NeverEarly(sent) && forall k :: 0 <= k < |group| ==> group[k].Release() <= clock
    ensures NeverEarly(sent + Sends(group, clock))
  {
  }

  /** What transmitting does to the transmitter's own state. */
  lemma TransmitMoves<R>(e: Emulator<R>, s: State<R>, next: nat)
    requires s.tx.Sending? && s.tx.i < |s.batch| && next == s.tx.i + Group(s.batch, s.tx.i)
    ensures var t := Next(e, s, Transmit);
            && TransmitterOk(t) && Pending(t) == s.batch[next..]
            && t.sent == s.sent + Sends(s.batch[s.tx.i..next], s.clock)
  {
    if next >= |s.batch| {
      assert s.batch[next..] == [];
    }
  }

  lemma TransmitFifo<R>(e: Emulator<R>, s: State<R>)
    requires s.tx.Sending? && s.tx.i < |s.batch| && Fifo(s)
    ensures var t := Next(e, s, Transmit); Fifo(t) && TransmitterOk(t)
  {
    var i := s.tx.i;
    var next := i + Group(s.batch, i);
    TransmitFrame(e, s);
    TransmitMoves(e, s, next);
    GroupSent(s.sent, s.batch, i, next, s.clock);
  }

  lemma TransmitNeverEarly<R>(e: Emulator<R>, s: State<R>)
    requires s.tx.Sending? && TransmitterOk(s) && Linked(s.batch) && NeverEarly(s.sent)
    ensures NeverEarly(Next(e, s, Transmit).sent)
  {
    var i := s.tx.i;
    GroupDue(s.batch, i, s.clock);
    GroupNeverEarly(s.sent, s.batch[i..i + Group(s.batch, i)], s.clock);
  }

  /** Transmitting leaves alone what is not the transmitter's. */
  lemma TransmitFrame<R>(e: Emulator<R>, s: State<R>)
    ensures var t := Next(e, s, Transmit);
            && t.held == s.held && t.ring == s.ring && t.accepted == s.accepted
            && (t.batch == s.batch || t.batch == [])
  {
  }

  lemma TransmitKeepsRing<R>(e: Emulator<R>, s: State<R>)
    requires RingOk(e, s)
    ensures RingOk(e, Next(e, s, Transmit))
  {
    if s.tx.Sending? {
      TransmitFrame(e, s);
      TransmitNeverEarly(e, s);
      TransmitFifo(e, s);
    }
  }

  lemma StepKeepsRing<R(!new)>(e: Emulator<R>, s: State<R>, step: Step)
    requires Lawful(e) && RingOk(e, s)
    ensures RingOk(e, Next(e, s, step))
  {
    match step
    case Tick(ticks) =>
    case Receive(pkts) => assert WellFormed(e.receive(s.rx, Stages.Burst(s.clock, pkts)).1);
    case Enqueue => EnqueueKeepsRing(e, s);
    case Dequeue(n) => DequeueKeepsRing(e, s, n);
    case Poll =>
    case Transmit => TransmitKeepsRing(e, s);
  }

  // ---------------------------------------------------------------- safety

  lemma {:induction false} RunInv<R(!new)>(e: Emulator<R>, steps: seq<Step>)
    requires Lawful(e)
    ensures ReceiverOk(e, Run(e, Start(e), steps)) && RingOk(e, Run(e, Start(e), steps))
  {
    if steps != [] {
      var s := Run(e, Start(e), steps[..|steps| - 1]);
      RunInv(e, steps[..|steps| - 1]);
      StepKeepsReceiver(e, s, steps[|steps| - 1]);
      StepKeepsRing(e, s, steps[|steps| - 1]);
    }
  }

  // ---------------------------------------------------------------- the capacity

  /** In every reachable state the ring holds no more than it can, and an enqueue
      rejects if and only if something is held that does not fit; then all of it
      is rejected, and otherwise all of it goes to the end of the ring. */
  lemma EnqueueRejectsIff<R(!new)>(e: Emulator<R>, steps: seq<Step>)
    ensures var s := Run(e, Start(e), steps);
            var t := Next(e, s, Enqueue);
            && |s.ring| <= e.capacity && t.held == []
            && (t.rejected != s.rejected <==> s.held != [] && |s.ring| + |s.held| > e.capacity)
            && (t.rejected != s.rejected ==>
                  t.rejected == s.rejected + s.held && t.ring == s.ring && t.accepted == s.accepted)
            && (t.rejected == s.rejected ==> t.ring == s.ring + s.held && t.accepted == s.accepted + s.held)
  {
    RingBounded(e, steps);
  }

  lemma {:induction false} RingBounded<R>(e: Emulator<R>, steps: seq<Step>)
    ensures |Run(e, Start(e), steps).ring| <= e.capacity
  {
    if steps != [] {
      RingBounded(e, steps[..|steps| - 1]);
    }
  }

  /** The ring holds a part of what was accepted. */
  lemma RingPart<R>(s: State<R>)
    requires Fifo(s)
    ensures |s.ring| <= |s.accepted|
  {
  }

  lemma ReceivedGrows<R>(e: Emulator<R>, s: State<R>, step: Step)
    ensures |Received(e, s.arrivals).1| <= |Received(e, Next(e, s, step).arrivals).1|
  {
    if step.Receive? {
      var us := s.arrivals + [Stages.Burst(s.clock, step.pkts)];
      assert us[..|us| - 1] == s.arrivals;
    }
  }

  /** Nothing is rejected in a run in which the receiver passed on no more packets
      than the ring can hold, however they are spread over bursts. */
  lemma {:induction false} NothingRejected<R(!new)>(e: Emulator<R>, steps: seq<Step>)
    requires Lawful(e) && |Received(e, Run(e, Start(e), steps).arrivals).1| <= e.capacity
    ensures Run(e, Start(e), steps).rejected == []
  {
    if steps != [] {
      var front := steps[..|steps| - 1];
      var s := Run(e, Start(e), front);
      ReceivedGrows(e, s, steps[|steps| - 1]);
      NothingRejected(e, front);
      RunInv(e, front);
      RingPart(s);
      StepRejectsNothing(e, s, steps[|steps| - 1], Received(e, s.arrivals).1);
    }
  }

  lemma StepRejectsNothing<R>(e: Emulator<R>, s: State<R>, step: Step, out: seq<Packet>)
    requires s.rejected == [] && Conserved(out, s.accepted, s.rejected, s.held)
    requires |s.ring| <= |s.accepted| && |out| <= e.capacity
    ensures Next(e, s, step).rejected == []
  {
  }

  // ---------------------------------------------------------------- what is promised

  /** Every packet that was sent left no earlier than its release, and at least
      the delay after the receiver read the clock. */
  predicate OnTime(sent: seq<Send>, delay: nat) {
    forall k :: 0 <= k < |sent| ==>
      sent[k].pkt.Release() <= sent[k].time && sent[k].pkt.received + delay <= sent[k].time
  }

  /** What the invariants promise. */
  predicate Safe<R>(e: Emulator<R>, s: State<R>) {
    && OnTime(s.sent, e.delay)
    && Packets(s.sent) <= s.accepted
    && (s.tx.Idle? ==> s.accepted == Packets(s.sent) + s.ring)
    && Conserved(Received(e, s.arrivals).1, s.accepted, s.rejected, s.held)
    && Stages.Ordered(s.arrivals, s.clock)
    && |s.ring| <= e.capacity
    && (|Received(e, s.arrivals).1| <= e.capacity ==> s.rejected == [])
  }

  lemma RingSafe<R>(e: Emulator<R>, s: State<R>)
    requires RingOk(e, s)
    ensures OnTime(s.sent, e.delay) && Packets(s.sent) <= s.accepted
    ensures s.tx.Idle? ==> s.accepted == Packets(s.sent) + s.ring
  {
    assert s.accepted == Packets(s.sent) + (Pending(s) + s.ring);
    assert forall k :: 0 <= k < |s.sent| ==> s.accepted[k] == s.sent[k].pkt;
    if s.tx.Idle? {
      assert Pending(s) + s.ring == s.ring;
    }
  }

  /** Safety, for every lawful receiver: whatever the interleaving, wherever a
      dequeue cuts a burst, and whatever is rejected, packets leave in order, at
      most once, never before their release and never before the delay has
      passed; between batches nothing dequeued is left unsent; nothing the
      receiver passed on is unaccounted for; and nothing is rejected unless the
      receiver passed on more than the ring can hold. */
  lemma RingSafety<R(!new)>(e: Emulator<R>, steps: seq<Step>)
    requires Lawful(e)
    ensures Safe(e, Run(e, Start(e), steps))
  {
    RunInv(e, steps);
    RingSafe(e, Run(e, Start(e), steps));
    RingBounded(e, steps);
    if |Received(e, Run(e, Start(e), steps).arrivals).1| <= e.capacity {
      NothingRejected(e, steps);
    }
  }

  // ---------------------------------------------------------------- reachability

  /** Every ordered sequence of bursts of 1 to 64 packets arrives in some run. */
  lemma {:induction false} ArrivalsReachable<R>(e: Emulator<R>, us: seq<Stages.Burst>, now: nat)
    returns (steps: seq<Step>)
    requires Stages.Ordered(us, now) && forall i :: 0 <= i < |us| ==> 1 <= |us[i].pkts| <= 64
    ensures var s := Run(e, Start(e), steps); s.arrivals == us && s.held == [] && s.clock <= now
  {
    if us == [] {
      steps := [];
    } else {
      var front, u := us[..|us| - 1], us[|us| - 1];
      var before := ArrivalsReachable(e, front, u.time);
      var s := Run(e, Start(e), before);
      var more := [Tick(u.time - s.clock), Receive(u.pkts), Enqueue];
      steps := before + more;
      RunConcat(e, Start(e), before, more);
      BurstArrives(e, s, u, more);
    }
  }

  lemma BurstArrives<R>(e: Emulator<R>, s: State<R>, u: Stages.Burst, steps: seq<Step>)
    requires s.held == [] && s.clock <= u.time && 1 <= |u.pkts| <= 64
    requires steps == [Tick(u.time - s.clock), Receive(u.pkts), Enqueue]
    ensures var t := Run(e, s, steps); t.arrivals == s.arrivals + [u] && t.held == [] && t.clock == u.time
  {
    RunThree(e, s, Tick(u.time - s.clock), Receive(u.pkts), Enqueue);
    var ready := s.(clock := u.time);
    assert Next(e, s, Tick(u.time - s.clock)) == ready;
    ReceiveTakes(e, ready, u.pkts);
  }

  lemma ReceiveTakes<R>(e: Emulator<R>, s: State<R>, pkts: seq<Stages.Pkt>)
    requires s.held == [] && 1 <= |pkts| <= 64
    ensures var t := Next(e, s, Receive(pkts));
            t.arrivals == s.arrivals + [Stages.Burst(s.clock, pkts)] && t.clock == s.clock
  {
  }

  // ---------------------------------------------------------------- progress

  lemma {:induction false} RunConcat<R>(e: Emulator<R>, s: State<R>, a: seq<Step>, b: seq<Step>)
    ensures Run(e, s, a + b) == Run(e, Run(e, s, a), b)
  {
    if b == [] {
      assert a + b == a;
    } else {
      RunConcat(e, s, a, b[..|b| - 1]);
      assert (a + b)[..|a + b| - 1] == a + b[..|b| - 1];
    }
  }

  /** Nothing is left to do until the next burst arrives. */
  predicate Settled<R>(s: State<R>) { s.held == [] && s.ring == [] && s.tx.Idle? }

  /** Steps that move packets on: the transmitter's and the clock's while the
      transmitter has work, then the receiver's. */
  function Advance<R>(s: State<R>): Step {
    match s.tx
    case Idle => if s.ring == [] then Enqueue else Dequeue(Least(Stages.BURST_SIZE, |s.ring|))
    case Polling(i) =>
      if i < |s.batch| && s.batch[i].Release() > s.clock then Tick(s.batch[i].Release() - s.clock) else Poll
    case Sending(i) => Transmit
  }

  /** What is left to do. */
  function Rank<R>(s: State<R>): nat {
    7 * |s.held| + 6 * |s.ring| + 3 * |Pending(s)|
    + match s.tx {
      case Idle => 0
      case Polling(i) => if i < |s.batch| && s.batch[i].Release() > s.clock then 2 else 1
      case Sending(_) => 0
    }
  }

  lemma AdvanceIdle<R>(e: Emulator<R>, s: State<R>)
    requires s.tx.Idle? && !Settled(s)
    ensures Rank(Next(e, s, Advance(s))) < Rank(s)
  {
  }

  lemma AdvancePolling<R>(e: Emulator<R>, s: State<R>)
    requires s.tx.Polling? && s.tx.i < |s.batch|
    ensures Rank(Next(e, s, Advance(s))) < Rank(s)
  {
  }

  lemma AdvanceSending<R>(e: Emulator<R>, s: State<R>)
    requires s.tx.Sending? && s.tx.i < |s.batch| && 1 <= s.batch[s.tx.i].burst
    ensures Rank(Next(e, s, Advance(s))) < Rank(s)
  {
    assert 1 <= Group(s.batch, s.tx.i);
  }

  lemma AdvanceRanks<R>(e: Emulator<R>, s: State<R>)
    requires RingOk(e, s) && !Settled(s)
    ensures Rank(Next(e, s, Advance(s))) < Rank(s)
  {
    match s.tx
    case Idle => AdvanceIdle(e, s);
    case Polling(i) => AdvancePolling(e, s);
    case Sending(i) => AdvanceSending(e, s);
  }

  /** Moving on reads no burst and rejects only what the empty ring cannot hold. */
  lemma AdvanceKeeps<R>(e: Emulator<R>, s: State<R>)
    ensures var t := Next(e, s, Advance(s));
            && t.arrivals == s.arrivals
            && (|s.held| <= e.capacity ==> t.rejected == s.rejected && |t.held| <= e.capacity)
  {
  }

  /** No reachable state is stuck: without another burst, everything that was
      accepted can be sent. */
  lemma {:induction false} Drains<R(!new)>(e: Emulator<R>, s: State<R>) returns (steps: seq<Step>)
    requires Lawful(e) && RingOk(e, s)
    ensures var t := Run(e, s, steps);
            && Settled(t) && RingOk(e, t) && t.arrivals == s.arrivals
            && (|s.held| <= e.capacity ==> t.rejected == s.rejected)
    decreases Rank(s)
  {
    if Settled(s) {
      steps := [];
    } else {
      var next := Next(e, s, Advance(s));
      StepKeepsRing(e, s, Advance(s));
      AdvanceRanks(e, s);
      AdvanceKeeps(e, s);
      var rest := Drains(e, next);
      steps := [Advance(s)] + rest;
      RunConcat(e, s, [Advance(s)], rest);
      assert [Advance(s)][..0] == [];
      assert Run(e, s, [Advance(s)]) == next;
    }
  }

  /** After any run, everything that was accepted can still be sent.  If nothing
      was rejected and the ring can hold what the receiver still holds, the
      transmitter then has sent exactly what the receiver passed on, in order. */
  lemma EverythingIsSent<R(!new)>(e: Emulator<R>, steps: seq<Step>) returns (more: seq<Step>)
    requires Lawful(e)
    ensures var s := Run(e, Start(e), steps);
            var t := Run(e, Start(e), steps + more);
            && Packets(t.sent) == t.accepted && t.arrivals == s.arrivals
            && (s.rejected == [] && |s.held| <= e.capacity ==> Packets(t.sent) == Received(e, s.arrivals).1)
  {
    var s := Run(e, Start(e), steps);
    RunInv(e, steps);
    more := Drains(e, s);
    RunConcat(e, Start(e), steps, more);
    var t := Run(e, Start(e), steps + more);
    RingSafe(e, t);
    RunInv(e, steps + more);
    assert Packets(t.sent) + t.ring == Packets(t.sent);
    assert t.accepted + t.held == t.accepted;
  }

  // ---------------------------------------------------------------- the code

  /** The time stamp counter.  Time passes between two readings. */
  class Tsc {
    var now: nat

    method Read() returns (t: nat)
      modifies this
      ensures t == now > old(now)
    {
      var ticks: nat :| ticks > 0;
      now := now + ticks;
      t := now;
    }
  }

  /** The receivers' loop over an accepted burst. */
  method StampBurst(bufs: array<Packet>, rx: nat, timestamp: nat, delay: nat)
    requires rx <= bufs.Length
    modifies bufs
    ensures bufs[..rx] == Stamped(Buffers(old(bufs[..rx])), timestamp, delay)
    ensures bufs[rx..] == old(bufs[rx..])
  {
    for i := 0 to rx
      invariant forall k :: 0 <= k < i ==>
                  bufs[k] == Packet(old(bufs[k]).pkt.(stamp := timestamp + delay), timestamp, rx - k)
      invariant forall k :: i <= k < bufs.Length ==> bufs[k] == old(bufs[k])
    {
      var buf := bufs[i].pkt;
      bufs[i] := Packet(buf.(stamp := timestamp + delay), timestamp, rx - i);
    }
  }

  /** The packets were sent in this order, none early and none after `now`. */
  predicate SentInOrder(sent: seq<Send>, ps: seq<Packet>, now: nat) {
    && Packets(sent) == ps
    && (forall k :: 0 <= k < |sent| ==> sent[k].pkt.Release() <= sent[k].time <= now)
    && (forall k, l :: 0 <= k < l < |sent| ==> sent[k].time <= sent[l].time)
  }

  /** Packets of one burst that are in one batch leave together. */
  predicate Together(sent: seq<Send>) {
    forall k, l :: 0 <= k <= l < |sent| && l < k + sent[k].pkt.burst ==> sent[l].time == sent[k].time
  }

  /** What one transmitter round takes of a burst of the delay and token-bucket
      receivers leaves at one time. */
  lemma BurstLeavesTogether(ps: seq<Stages.Pkt>, time: nat, delay: nat, lo: nat, hi: nat, sent: seq<Send>)
    requires lo <= hi <= |ps| && Together(sent) && Packets(sent) == Stamped(ps, time, delay)[lo..hi]
    ensures forall k, l :: 0 <= k < l < |sent| ==> sent[l].time == sent[k].time
  {
    forall k, l | 0 <= k < l < |sent| ensures sent[l].time == sent[k].time {
      assert sent[k].pkt == Stamped(ps, time, delay)[lo + k];
    }
  }

  /** No burst that was begun before packet `i` of a batch goes on behind it. */
  predicate Aligned(ps: seq<Packet>, i: nat) {
    i <= |ps| && forall k :: 0 <= k < i ==> Least(k + ps[k].burst, |ps|) <= i
  }

  lemma SendTogether(sent: seq<Send>, ps: seq<Packet>, i: nat, next: nat, time: nat, all: seq<Send>)
    requires Linked(ps) && i < |ps| && next == i + Group(ps, i)
    requires Packets(sent) == ps[..i] && Together(sent) && Aligned(ps, i)
    requires all == sent + Sends(ps[i..next], time)
    ensures Together(all) && Aligned(ps, next)
  {
    forall k, l | 0 <= k <= l < |all| && l < k + all[k].pkt.burst ensures all[l].time == all[k].time {
      assert k < i ==> Packets(sent)[k] == ps[k];
    }
  }

  lemma SendGroup(sent: seq<Send>, ps: seq<Packet>, i: nat, now: nat, time: nat)
    requires Linked(ps) && i < |ps| && SentInOrder(sent, ps[..i], now) && now <= time && ps[i].Release() <= time
    ensures var next := i + Group(ps, i);
            SentInOrder(sent + Sends(ps[i..next], time), ps[..next], time)
  {
    var next := i + Group(ps, i);
    GroupDue(ps, i, time);
    assert ps[..next] == ps[..i] + ps[i..next];
    assert Packets(sent + Sends(ps[i..next], time)) == Packets(sent) + ps[i..next];
  }

  /** Busy waiting. */
  method WaitFor(release: nat, tsc: Tsc) returns (t: nat)
    modifies tsc
    ensures release <= t == tsc.now && old(tsc.now) <= tsc.now
  {
    t := tsc.Read();
    while release > t
      invariant old(tsc.now) <= t == tsc.now
      decreases release - t
    {
      t := tsc.Read();
    }
  }

  /** A state in which the transmitter has sent the first `i` packets of its
      batch, as `sent`, by the time `now`. */
  function Progressed<R>(s: State<R>, sent: seq<Send>, i: nat, now: nat): State<R> {
    s.(clock := now, sent := s.sent + sent,
       batch := if i < |s.batch| then s.batch else [],
       tx := if i < |s.batch| then Polling(i) else Idle)
  }

  lemma RunThree<R>(e: Emulator<R>, s: State<R>, a: Step, b: Step, c: Step)
    ensures Run(e, s, [a, b, c]) == Next(e, Next(e, Next(e, s, a), b), c)
  {
    assert [a, b, c][..2] == [a, b] && [a, b][..1] == [a] && [a][..0] == [];
    assert Run(e, s, [a]) == Next(e, s, a);
    assert Run(e, s, [a, b]) == Next(e, Next(e, s, a), b);
  }

  /** The steps of one group: time passes, the poll succeeds, the group leaves. */
  lemma GroupSteps<R>(e: Emulator<R>, s: State<R>, sent: seq<Send>, i: nat, now: nat, time: nat)
    requires i < |s.batch| && s.batch[i].Release() <= time && now <= time
    ensures var next := i + Group(s.batch, i);
            Run(e, Progressed(s, sent, i, now), [Tick(time - now), Poll, Transmit])
            == Progressed(s, sent + Sends(s.batch[i..next], time), next, time)
  {
    var waiting := Progressed(s, sent, i, now);
    var due := Progressed(s, sent, i, time);
    RunThree(e, waiting, Tick(time - now), Poll, Transmit);
    assert Next(e, waiting, Tick(time - now)) == due;
    assert Next(e, due, Poll) == due.(tx := Sending(i));
    SendingStep(e, s, sent, i, time);
  }

  lemma SendingStep<R>(e: Emulator<R>, s: State<R>, sent: seq<Send>, i: nat, time: nat)
    requires i < |s.batch|
    ensures var next := i + Group(s.batch, i);
            Next(e, Progressed(s, sent, i, time).(tx := Sending(i)), Transmit)
            == Progressed(s, sent + Sends(s.batch[i..next], time), next, time)
  {
    var next := i + Group(s.batch, i);
    assert s.sent + sent + Sends(s.batch[i..next], time) == s.sent + (sent + Sends(s.batch[i..next], time));
  }

  /** How far the loop below has come, as a run of steps of the machine. */
  ghost predicate Underway<R>(
      e: Emulator<R>, s: State<R>, steps: seq<Step>, sent: seq<Send>, i: nat, now: nat)
  {
    && i <= |s.batch| && SentInOrder(sent, s.batch[..i], now)
    && Together(sent) && Aligned(s.batch, i)
    && Run(e, s, steps) == Progressed(s, sent, i, now)
  }

  lemma RunMore<R>(e: Emulator<R>, s: State<R>, steps: seq<Step>, sent: seq<Send>, i: nat, now: nat, time: nat,
                   group: seq<Step>, more: seq<Send>, next: nat)
    requires i < |s.batch| && s.batch[i].Release() <= time && now <= time
    requires next == i + Group(s.batch, i) && more == sent + Sends(s.batch[i..next], time)
    requires group == [Tick(time - now), Poll, Transmit]
    requires Run(e, s, steps) == Progressed(s, sent, i, now)
    ensures Run(e, s, steps + group) == Progressed(s, more, next, time)
  {
    GroupSteps(e, s, sent, i, now, time);
    RunConcat(e, s, steps, group);
  }

  lemma BatchStep<R>(e: Emulator<R>, s: State<R>, ps: seq<Packet>, steps: seq<Step>, sent: seq<Send>, i: nat,
                     now: nat, time: nat, more: seq<Send>, next: nat)
    returns (all: seq<Step>)
    requires ps == s.batch && Linked(ps) && i < |ps| && ps[i].Release() <= time && now <= time
    requires Underway(e, s, steps, sent, i, now)
    requires next == i + Group(ps, i) && more == sent + Sends(ps[i..next], time)
    ensures Underway(e, s, all, more, next, time)
  {
    var group := [Tick(time - now), Poll, Transmit];
    SendGroup(sent, ps, i, now, time);
    SendTogether(sent, ps, i, next, time, more);
    RunMore(e, s, steps, sent, i, now, time, group, more, next);
    all := steps + group;
  }

  /** The body of the loop: waits for a packet and sends its group. */
  method TransmitGroup(rxPkts: seq<Packet>, i: nat, sentBefore: seq<Send>, tsc: Tsc)
    returns (next: nat, sent: seq<Send>)
    requires i < |rxPkts|
    modifies tsc
    ensures old(tsc.now) <= tsc.now && rxPkts[i].Release() <= tsc.now
    ensures next == i + Group(rxPkts, i) && sent == sentBefore + Sends(rxPkts[i..next], tsc.now)
  {
    var t := WaitFor(rxPkts[i].Release(), tsc);
    var packetBurst := Group(rxPkts, i);
    next := i + packetBurst;
    sent := sentBefore + Sends(rxPkts[i..next], t);
  }

  /** The transmitter's loop over a dequeued batch, and what it sent when.  The
      loop is a run of steps of the machine, from any state with this batch. */
  method TransmitBatch<R>(rxPkts: seq<Packet>, tsc: Tsc, ghost e: Emulator<R>, ghost s: State<R>)
    returns (sent: seq<Send>, ghost steps: seq<Step>)
    requires rxPkts != [] && Linked(rxPkts) && Positive(rxPkts)
    requires s.tx == Polling(0) && s.batch == rxPkts && s.clock == tsc.now
    modifies tsc
    ensures SentInOrder(sent, rxPkts, tsc.now) && Together(sent)
    ensures Run(e, s, steps) == Progressed(s, sent, |rxPkts|, tsc.now)
  {
    sent, steps := [], [];
    NothingYet(e, s);
    var i := 0;
    while i < |rxPkts|
      invariant 0 <= i <= |rxPkts| && Underway(e, s, steps, sent, i, tsc.now)
    {
      ghost var now := tsc.now;
      var next, more := TransmitGroup(rxPkts, i, sent, tsc);
      assert Group(rxPkts, i) >= 1;
      steps := BatchStep(e, s, rxPkts, steps, sent, i, now, tsc.now, more, next);
      i, sent := next, more;
    }
    assert rxPkts[..i] == rxPkts;
  }

  lemma NothingYet<R>(e: Emulator<R>, s: State<R>)
    requires s.tx == Polling(0) && s.batch != []
    ensures Underway(e, s, [], [], 0, s.clock)
  {
    assert s.sent + [] == s.sent;
  }

  /** One round of the transmitter: up to 64 packets are taken from the ring and
      sent.  It, too, is a run of steps of the machine. */
  method TransmitterRound<R>(ring: seq<Packet>, n: nat, tsc: Tsc, ghost e: Emulator<R>, ghost s: State<R>)
    returns (rest: seq<Packet>, sent: seq<Send>, ghost steps: seq<Step>)
    requires n <= |ring| && n <= 64
    requires RingOk(e, s) && s.tx.Idle? && s.ring == ring && s.clock == tsc.now
    modifies tsc
    ensures rest == ring[n..] && SentInOrder(sent, ring[..n], tsc.now) && Together(sent)
    ensures Run(e, s, steps) == s.(clock := tsc.now, ring := rest, sent := s.sent + sent)
  {
    rest, sent, steps := ring[n..], [], [];
    assert s.sent + [] == s.sent && ring[0..] == ring;
    if n > 0 {
      WellFormedCut(ring, n);
      ghost var dequeued := Next(e, s, Dequeue(n));
      ghost var more;
      sent, more := TransmitBatch(ring[..n], tsc, e, dequeued);
      steps := [Dequeue(n)] + more;
      RunConcat(e, s, [Dequeue(n)], more);
      assert [Dequeue(n)][..0] == [];
      assert Run(e, s, [Dequeue(n)]) == dequeued;
    }
  }
}
