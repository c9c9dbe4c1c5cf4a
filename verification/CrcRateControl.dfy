/**
 Rate control with filler frames (src/crc-ratecontrol.cpp).

 A requested gap is measured in bytes on the wire.  It is filled with frames
 the receiver discards.  What cannot be filled, because a frame has a minimum
 size, is carried over to the next packet.

 Sizes called "wire" include the per-packet overhead; sizes called "len" do not.
 Integers are unbounded.
 */
module CrcRateControl {
  import opened Integers
  import opened Sequences

  const TRANSMIT_BUFFER_SIZE: nat := 64
  const MAX_INVALID_PACKETS: nat := 1024

  /** A packet buffer.  `stamp` is the timestamp field that the code overwrites.
      `goal` and `late` are history: no branch reads them.  They record the
      launch time the application asked for and how the packet was judged. */
  datatype Packet = Packet(id: nat, len: nat, stamp: nat, goal: nat, late: bool)

  /** One entry of the array of packets to send. */
  datatype Slot = Null | Full(pkt: Packet)

  /** What is handed to the network card. */
  datatype Frame = Filler(len: nat) | Load(pkt: Packet) {
    function Len(): nat { if Filler? then len else pkt.len }
  }

  /** The sizes that govern filling: the minimum packet size, the overhead of a
      packet on the wire and the preferred size of a filler. */
  datatype Sizes = Sizes(minSize: nat, overhead: nat, invalid: nat) {
    /** The smallest gap that is filled at all. */
    function MinWire(): nat { minSize + overhead }

    /** The smallest gap above the preferred size that can occur. */
    function Above(): nat { if invalid < MinWire() then MinWire() else invalid + 1 }

    /** The sizes for which filling makes progress and no unsigned subtraction
        of the filler computation wraps around; see `SaneIff`. */
    predicate Sane() {
      && 1 <= MinWire()
      && 50 <= invalid && overhead <= invalid
      && (Above() <= 2 * invalid - 100 ==> overhead <= Above() / 2)
    }
  }

  // ---------------------------------------------------------------- fillers

  /** The wire size chosen for the next filler of a gap of `gap` bytes. */
  function FillerWire(c: Sizes, gap: nat): (w: nat)
    requires c.Sane() && c.MinWire() <= gap
    ensures SoundWire(c, gap, w)
  {
    if gap <= c.invalid then gap
    else if gap > 2 * c.invalid - 100 then c.invalid
    else gap / 2
  }

  /** The choice as the code computes it, in unsigned arithmetic of 64 bits. */
  function RawWire(c: Sizes, gap: nat): nat {
    if gap <= c.invalid then gap
    else if gap > (2 * c.invalid - 100) % WORD then c.invalid
    else gap / 2
  }

  /** A filler that fits into the gap and the preferred size, shortens the gap
      and has room for its own overhead. */
  predicate SoundWire(c: Sizes, gap: nat, w: nat) {
    1 <= w <= gap && w <= c.invalid && c.overhead <= w
  }

  /** Where the sizes are sane, nothing wraps. */
  lemma RawIsFillerWire(c: Sizes, gap: nat)
    requires c.Sane() && c.MinWire() <= gap && 2 * c.invalid < WORD
    ensures RawWire(c, gap) == FillerWire(c, gap)
  {
    NoWrap(2 * c.invalid - 100);
  }

  lemma NoWrap(x: int)
    requires 0 <= x < WORD
    ensures x % WORD == x
  {
  }

  /** A gap for which the code goes wrong if the sizes are not sane: the loop
      does not end, or the length of the filler wraps around. */
  lemma WrapWitness(c: Sizes) returns (gap: nat)
    requires !c.Sane() && 4 * c.invalid < WORD && 4 * c.MinWire() + 1000 < WORD
    ensures c.MinWire() <= gap < WORD && !SoundWire(c, gap, RawWire(c, gap))
  {
    if c.MinWire() == 0 {
      gap := 0;
    } else if c.invalid < 50 {
      // the bound of the middle branch is close to 2^64
      gap := 2 * c.invalid + 2 * c.MinWire() + 2;
      assert (2 * c.invalid - 100) % WORD == 2 * c.invalid - 100 + WORD;
    } else if c.overhead > c.invalid {
      gap := 2 * c.invalid + c.MinWire();
    } else {
      gap := c.Above();
    }
  }

  /** Sane sizes are exactly those for which every filler the code chooses is
      sound, for sizes far from the width of the integers. */
  lemma SaneIff(c: Sizes)
    requires 4 * c.invalid < WORD && 4 * c.MinWire() + 1000 < WORD
    ensures c.Sane() <==> forall gap: nat :: c.MinWire() <= gap < WORD ==> SoundWire(c, gap, RawWire(c, gap))
  {
    if c.Sane() {
      forall gap: nat | c.MinWire() <= gap < WORD ensures SoundWire(c, gap, RawWire(c, gap)) {
        RawIsFillerWire(c, gap);
      }
    } else {
      var gap := WrapWitness(c);
      assert c.MinWire() <= gap < WORD && !SoundWire(c, gap, RawWire(c, gap));
    }
  }

  /** The wire sizes of all fillers of a gap. */
  function Fillers(c: Sizes, gap: nat): (ws: seq<nat>)
    requires c.Sane()
    ensures forall i :: 0 <= i < |ws| ==> c.overhead <= ws[i] <= c.invalid
  {
    if gap < c.MinWire() then []
    else
      var w := FillerWire(c, gap);
      [w] + Fillers(c, gap - w)
  }

  /** What is left of a gap after filling. */
  function Remainder(c: Sizes, gap: nat): (r: nat)
    requires c.Sane()
    ensures r < c.MinWire()
  {
    if gap < c.MinWire() then gap else Remainder(c, gap - FillerWire(c, gap))
  }

  function Sum(ws: seq<nat>): nat {
    if ws == [] then 0 else ws[0] + Sum(ws[1..])
  }

  lemma {:induction false} FillersConserve(c: Sizes, gap: nat)
    requires c.Sane()
    ensures Sum(Fillers(c, gap)) + Remainder(c, gap) == gap
  {
    if c.MinWire() <= gap {
      var w := FillerWire(c, gap);
      FillersConserve(c, gap - w);
      assert ([w] + Fillers(c, gap - w))[1..] == Fillers(c, gap - w);
    }
  }

  /** All frame sizes lie in the given range. */
  predicate AllWithin(ws: seq<nat>, lo: nat, hi: nat) {
    forall i :: 0 <= i < |ws| ==> lo <= ws[i] <= hi
  }

  /** `k` is the quotient of `d` by `s`, rounded up. */
  predicate IsCeilDiv(k: nat, d: nat, s: nat)
    requires d > 0
  {
    k > 0 && (k - 1) * s < d <= k * s
  }

  lemma CeilDivStep(k: nat, d: nat, s: nat)
    requires d > 0 && IsCeilDiv(k, d, s)
    ensures IsCeilDiv(k + 1, d + s, s)
  {
    assert (k + 1) * s == k * s + s;
    assert (k - 1) * s == k * s - s;
  }

  /** Fillers leave nothing over and no filler is too small or too large. */
  predicate FillsExactly(c: Sizes, gap: nat)
    requires c.Sane()
  {
    Remainder(c, gap) == 0 && AllWithin(Fillers(c, gap), c.MinWire(), c.invalid)
  }

  /** The relation between minimum and preferred size that makes filling exact. */
  predicate SizesFit(c: Sizes) {
    c.MinWire() == 1 || (c.MinWire() <= (c.invalid + 1) / 2 && c.MinWire() + 99 <= c.invalid)
  }

  lemma FillersOne(c: Sizes, gap: nat)
    requires c.Sane() && c.MinWire() <= gap <= c.invalid
    ensures Fillers(c, gap) == [gap] && Remainder(c, gap) == 0
  {
    assert Fillers(c, 0) == [];
  }

  lemma FillersTwo(c: Sizes, gap: nat)
    requires c.Sane() && SizesFit(c)
    requires c.invalid < gap <= 2 * c.invalid - 100
    ensures Fillers(c, gap) == [gap / 2, gap - gap / 2] && Remainder(c, gap) == 0
  {
    FillersOne(c, gap - gap / 2);
  }

  lemma FillersMany(c: Sizes, gap: nat, rest: nat)
    requires c.Sane() && SizesFit(c)
    requires c.invalid < gap && 2 * c.invalid - 100 < gap && rest == gap - c.invalid
    ensures c.MinWire() <= rest
    ensures Fillers(c, gap) == [c.invalid] + Fillers(c, rest) && Remainder(c, gap) == Remainder(c, rest)
    ensures FillsExactly(c, rest) ==> FillsExactly(c, gap)
  {
    assert FillerWire(c, gap) == c.invalid;
  }

  lemma {:induction false} FillersFill(c: Sizes, gap: nat)
    requires c.Sane() && SizesFit(c) && c.MinWire() <= gap
    ensures FillsExactly(c, gap)
    decreases gap
  {
    if gap <= c.invalid {
      FillersOne(c, gap);
    } else if gap <= 2 * c.invalid - 100 {
      FillersTwo(c, gap);
    } else {
      FillersMany(c, gap, gap - c.invalid);
      FillersFill(c, gap - c.invalid);
    }
  }

  lemma CeilDivSmall(d: nat, s: nat)
    requires d > 0
    ensures d <= s ==> IsCeilDiv(1, d, s)
    ensures s < d <= 2 * s ==> IsCeilDiv(2, d, s)
  {
  }

  lemma {:induction false} FillersCount(c: Sizes, gap: nat, k: nat)
    requires c.Sane() && SizesFit(c) && c.MinWire() <= gap && k == |Fillers(c, gap)|
    ensures IsCeilDiv(k, gap, c.invalid)
    decreases gap
  {
    if gap <= c.invalid {
      FillersOne(c, gap);
      CeilDivSmall(gap, c.invalid);
    } else if gap <= 2 * c.invalid - 100 {
      FillersTwo(c, gap);
      CeilDivSmall(gap, c.invalid);
    } else {
      var rest := gap - c.invalid;
      FillersMany(c, gap, rest);
      FillersCount(c, rest, k - 1);
      CeilDivStep(k - 1, rest, c.invalid);
    }
  }

  /** Where the sizes fit, every gap that is filled at all is filled exactly,
      with as few fillers as the preferred size permits. */
  lemma FillersExact(c: Sizes, gap: nat)
    requires c.Sane() && SizesFit(c)
    requires c.MinWire() <= gap
    ensures FillsExactly(c, gap)
    ensures IsCeilDiv(|Fillers(c, gap)|, gap, c.invalid)
  {
    FillersFill(c, gap);
    FillersCount(c, gap, |Fillers(c, gap)|);
  }

  lemma {:induction false} PartsBound(ws: seq<nat>, s: nat)
    requires AllWithin(ws, 0, s)
    ensures Sum(ws) <= |ws| * s
  {
    if ws != [] {
      PartsBound(ws[1..], s);
      assert |ws| * s == (|ws| - 1) * s + s;
    }
  }

  /** No other way of cutting the gap into frames of at most the preferred size
      uses fewer frames. */
  lemma FillersMinimal(c: Sizes, gap: nat, ws: seq<nat>)
    requires c.Sane() && SizesFit(c)
    requires c.MinWire() <= gap
    requires Sum(ws) == gap && AllWithin(ws, 0, c.invalid)
    ensures |Fillers(c, gap)| <= |ws|
  {
    FillersExact(c, gap);
    PartsBound(ws, c.invalid);
    var k := |Fillers(c, gap)|;
    if |ws| < k {
      MulMonotone(|ws|, k - 1, c.invalid);
    }
  }

  lemma MulMonotone(a: nat, b: nat, s: nat)
    requires a <= b
    ensures a * s <= b * s
  {
  }

  /** The size relation is also necessary: it is exactly what the fill loop needs. */
  lemma FillsExactlyIffSizesFit(c: Sizes)
    requires c.Sane()
    ensures SizesFit(c) <==> forall gap: nat :: c.MinWire() <= gap ==> FillsExactly(c, gap)
  {
    if SizesFit(c) {
      forall gap: nat | c.MinWire() <= gap ensures FillsExactly(c, gap) {
        FillersExact(c, gap);
      }
    } else {
      var gap := FillWitness(c);
      assert c.MinWire() <= gap && !FillsExactly(c, gap);
    }
  }

  /** A gap that is not filled exactly when the sizes do not fit. */
  lemma FillWitness(c: Sizes) returns (gap: nat)
    requires c.Sane() && !SizesFit(c)
    ensures c.MinWire() <= gap && !FillsExactly(c, gap)
  {
    if c.invalid < c.MinWire() {
      gap := c.MinWire();
      assert Fillers(c, gap)[0] == FillerWire(c, gap) < c.MinWire();
    } else if c.invalid < c.MinWire() + 99 {
      gap := if c.invalid < 100 then c.invalid + 1 else 2 * c.invalid - 99;
      assert Remainder(c, gap) == Remainder(c, gap - c.invalid) == gap - c.invalid;
    } else {
      gap := c.invalid + 1;
      assert Fillers(c, gap)[0] == FillerWire(c, gap) == gap / 2 < c.MinWire();
    }
  }

  // ---------------------------------------------------------------- frames

  /** The filler frames of a gap. */
  function FillerFrames(c: Sizes, gap: nat): (fs: seq<Frame>)
    requires c.Sane()
  {
    if gap < c.MinWire() then []
    else
      var w := FillerWire(c, gap);
      [Filler(w - c.overhead)] + FillerFrames(c, gap - w)
  }

  /** How far filling has come: `all` are the frames so far, `delay` is left. */
  predicate Filling(c: Sizes, gap: nat, before: seq<Frame>, delay: nat, all: seq<Frame>, pkts: int, bytes: int)
    requires c.Sane()
  {
    && all + FillerFrames(c, delay) == before + FillerFrames(c, gap)
    && Remainder(c, delay) == Remainder(c, gap)
    && pkts + |FillerFrames(c, delay)| == |FillerFrames(c, gap)|
    && bytes + 20 * pkts == gap - delay
  }

  /** One filler more. */
  lemma FillStep(c: Sizes, gap: nat, before: seq<Frame>, delay: nat, all: seq<Frame>, pkts: int, bytes: int, f: Frame)
    requires c.Sane() && Filling(c, gap, before, delay, all, pkts, bytes)
    requires c.MinWire() <= delay && f == Filler(FillerWire(c, delay) - c.overhead)
    ensures var rest := delay - (f.len + c.overhead);
            && 0 <= rest < delay
            && Filling(c, gap, before, rest, all + [f], pkts + 1, bytes + f.len + c.overhead - 20)
  {
    var rest := delay - FillerWire(c, delay);
    assert FillerFrames(c, delay) == [f] + FillerFrames(c, rest);
    assert all + [f] + FillerFrames(c, rest) == all + ([f] + FillerFrames(c, rest));
  }

  /** They are the fillers of the gap, without their overhead. */
  lemma {:induction false} FillerFramesAreFillers(c: Sizes, gap: nat)
    requires c.Sane()
    ensures |FillerFrames(c, gap)| == |Fillers(c, gap)|
    ensures forall i :: 0 <= i < |Fillers(c, gap)| ==>
              FillerFrames(c, gap)[i] == Filler(Fillers(c, gap)[i] - c.overhead)
    decreases gap
  {
    if c.MinWire() <= gap {
      FillerFramesAreFillers(c, gap - FillerWire(c, gap));
    }
  }

  /** Bytes that frames occupy on the wire. */
  function Bytes(overhead: nat, fs: seq<Frame>): nat {
    if fs == [] then 0
    else Bytes(overhead, fs[..|fs| - 1]) + fs[|fs| - 1].Len() + overhead
  }

  lemma {:induction false} BytesConcat(overhead: nat, a: seq<Frame>, b: seq<Frame>)
    ensures Bytes(overhead, a + b) == Bytes(overhead, a) + Bytes(overhead, b)
  {
    if b == [] {
      assert a + b == a;
    } else {
      BytesConcat(overhead, a, b[..|b| - 1]);
      assert (a + b)[..|a + b| - 1] == a + b[..|b| - 1];
    }
  }

  /** The packets among the frames, in order. */
  function Loads(fs: seq<Frame>): seq<Packet> {
    if fs == [] then []
    else
      var front := Loads(fs[..|fs| - 1]);
      if fs[|fs| - 1].Load? then front + [fs[|fs| - 1].pkt] else front
  }

  lemma {:induction false} LoadsConcat(a: seq<Frame>, b: seq<Frame>)
    ensures Loads(a + b) == Loads(a) + Loads(b)
  {
    if b == [] {
      assert a + b == a;
    } else {
      LoadsConcat(a, b[..|b| - 1]);
      assert (a + b)[..|a + b| - 1] == a + b[..|b| - 1];
    }
  }

  /** The packets of the non-empty slots, in order. */
  function Survivors(slots: seq<Slot>): seq<Packet> {
    if slots == [] then []
    else
      var front := Survivors(slots[..|slots| - 1]);
      if slots[|slots| - 1].Full? then front + [slots[|slots| - 1].pkt] else front
  }

  /** Total of the requested gaps. */
  function Gaps(ps: seq<Packet>): nat {
    if ps == [] then 0 else Gaps(ps[..|ps| - 1]) + ps[|ps| - 1].stamp
  }

  /** Bytes that packets themselves occupy on the wire. */
  function PacketBytes(overhead: nat, ps: seq<Packet>): nat {
    if ps == [] then 0
    else PacketBytes(overhead, ps[..|ps| - 1]) + ps[|ps| - 1].len + overhead
  }

  lemma SurvivorsStep(slots: seq<Slot>)
    requires slots != [] && slots[|slots| - 1].Full?
    ensures var front := Survivors(slots[..|slots| - 1]);
            var p := slots[|slots| - 1].pkt;
            && Survivors(slots) == front + [p]
            && Gaps(Survivors(slots)) == Gaps(front) + p.stamp
            && forall oh: nat :: PacketBytes(oh, Survivors(slots)) == PacketBytes(oh, front) + p.len + oh
  {
    var front := Survivors(slots[..|slots| - 1]);
    assert Survivors(slots)[..|front|] == front;
  }

  /** Putting a filler in front. */
  lemma FillerFirst(overhead: nat, f: Frame, fs: seq<Frame>)
    requires f.Filler?
    ensures Bytes(overhead, [f] + fs) == f.len + overhead + Bytes(overhead, fs)
    ensures Loads([f] + fs) == Loads(fs)
  {
    BytesConcat(overhead, [f], fs);
    LoadsConcat([f], fs);
    assert [f][..0] == [];
    assert Loads([f]) == [];
  }

  /** The fillers of a gap occupy the gap but for the remainder. */
  lemma {:induction false} FillerBytes(c: Sizes, gap: nat)
    requires c.Sane()
    ensures Bytes(c.overhead, FillerFrames(c, gap)) + Remainder(c, gap) == gap
    decreases gap
  {
    if c.MinWire() <= gap {
      var w := FillerWire(c, gap);
      FillerBytes(c, gap - w);
      FillerFirst(c.overhead, Filler(w - c.overhead), FillerFrames(c, gap - w));
    }
  }

  lemma {:induction false} FillersCarryNothing(c: Sizes, gap: nat)
    requires c.Sane()
    ensures Loads(FillerFrames(c, gap)) == []
    decreases gap
  {
    if c.MinWire() <= gap {
      var w := FillerWire(c, gap);
      FillersCarryNothing(c, gap - w);
      FillerFirst(c.overhead, Filler(w - c.overhead), FillerFrames(c, gap - w));
    }
  }

  // ---------------------------------------------------------------- one call

  datatype Expansion = Expansion(frames: seq<Frame>, carry: nat)

  /** One slot: nothing for an empty one, else the fillers and the packet. */
  function ExpandOne(c: Sizes, e: Expansion, slot: Slot): Expansion
    requires c.Sane()
  {
    match slot
    case Null => e
    case Full(p) =>
      var gap := p.stamp + e.carry;
      Expansion(e.frames + FillerFrames(c, gap) + [Load(p)], Remainder(c, gap))
  }

  /** The simple form of sending: for each packet its fillers, then the packet. */
  function Expand(c: Sizes, slots: seq<Slot>, carry: nat): (e: Expansion)
    requires c.Sane()
  {
    if slots == [] then Expansion([], carry)
    else ExpandOne(c, Expand(c, slots[..|slots| - 1], carry), slots[|slots| - 1])
  }

  /** The carry stays below the smallest gap that is filled. */
  lemma {:induction false} CarryBound(c: Sizes, slots: seq<Slot>, carry: nat)
    requires c.Sane() && carry < c.MinWire()
    ensures Expand(c, slots, carry).carry < c.MinWire()
  {
    if slots != [] {
      CarryBound(c, slots[..|slots| - 1], carry);
    }
  }

  lemma ExpandOneConserves(c: Sizes, e: Expansion, p: Packet)
    requires c.Sane()
    ensures var e1 := ExpandOne(c, e, Full(p));
            && Loads(e1.frames) == Loads(e.frames) + [p]
            && Bytes(c.overhead, e1.frames) + e1.carry
               == Bytes(c.overhead, e.frames) + e.carry + p.stamp + p.len + c.overhead
  {
    var gap := p.stamp + e.carry;
    var fills := FillerFrames(c, gap);
    FillerBytes(c, gap);
    FillersCarryNothing(c, gap);
    BytesConcat(c.overhead, e.frames, fills);
    LoadsConcat(e.frames, fills);
    assert (e.frames + fills + [Load(p)])[..|e.frames + fills|] == e.frames + fills;
  }

  /** Sending neither loses, reorders nor invents packets, and every requested
      byte is either on the wire or still carried. */
  lemma {:induction false} ExpandConserves(c: Sizes, slots: seq<Slot>, carry: nat)
    requires c.Sane()
    ensures Loads(Expand(c, slots, carry).frames) == Survivors(slots)
    ensures Bytes(c.overhead, Expand(c, slots, carry).frames) + Expand(c, slots, carry).carry
            == Gaps(Survivors(slots)) + PacketBytes(c.overhead, Survivors(slots)) + carry
  {
    if slots != [] {
      var front := slots[..|slots| - 1];
      ExpandConserves(c, front, carry);
      if slots[|slots| - 1].Full? {
        ExpandOneConserves(c, Expand(c, front, carry), slots[|slots| - 1].pkt);
        SurvivorsStep(slots);
      }
    }
  }

  // ---------------------------------------------------------------- starts

  /** A packet and the position on the wire at which it starts. */
  datatype Launch = Launch(start: nat, pkt: Packet)

  /** The packets among the frames, with their positions counted from `base`. */
  function Launches(overhead: nat, base: nat, fs: seq<Frame>): seq<Launch> {
    if fs == [] then []
    else
      var front := fs[..|fs| - 1];
      var rest := Launches(overhead, base, front);
      if fs[|fs| - 1].Load? then rest + [Launch(base + Bytes(overhead, front), fs[|fs| - 1].pkt)] else rest
  }

  lemma {:induction false} LaunchesConcat(overhead: nat, base: nat, a: seq<Frame>, b: seq<Frame>)
    ensures Launches(overhead, base, a + b)
            == Launches(overhead, base, a) + Launches(overhead, base + Bytes(overhead, a), b)
  {
    if b == [] {
      assert a + b == a;
    } else {
      var front := b[..|b| - 1];
      LaunchesConcat(overhead, base, a, front);
      BytesConcat(overhead, a, front);
      assert (a + b)[..|a + b| - 1] == a + front;
    }
  }

  /** Frames without a packet launch nothing. */
  lemma {:induction false} NoLaunches(overhead: nat, base: nat, fs: seq<Frame>)
    requires Loads(fs) == []
    ensures Launches(overhead, base, fs) == []
  {
    if fs != [] {
      NoLaunches(overhead, base, fs[..|fs| - 1]);
    }
  }

  /** The launches are the packets on the wire, in order, each at the bytes
      in front of it. */
  lemma {:induction false} LaunchesAreLoads(overhead: nat, base: nat, fs: seq<Frame>)
    ensures |Launches(overhead, base, fs)| == |Loads(fs)|
    ensures forall i :: 0 <= i < |Loads(fs)| ==> Launches(overhead, base, fs)[i].pkt == Loads(fs)[i]
  {
    if fs != [] {
      LaunchesAreLoads(overhead, base, fs[..|fs| - 1]);
    }
  }

  /** The packet at any place launches from there. */
  lemma {:induction false} LaunchAt(overhead: nat, base: nat, fs: seq<Frame>, k: nat)
    requires k < |fs| && fs[k].Load?
    ensures Launch(base + Bytes(overhead, fs[..k]), fs[k].pkt) in Launches(overhead, base, fs)
  {
    var n := |fs| - 1;
    var front := Launches(overhead, base, fs[..n]);
    if k < n {
      LaunchAt(overhead, base, fs[..n], k);
      assert fs[..n][..k] == fs[..k];
    } else {
      var l := Launch(base + Bytes(overhead, fs[..k]), fs[k].pkt);
      assert Launches(overhead, base, fs) == front + [l];
      assert (front + [l])[|front|] == l;
    }
  }

  lemma LaunchAfter(overhead: nat, base: nat, fs: seq<Frame>, fills: seq<Frame>, p: Packet)
    requires Loads(fills) == []
    ensures Launches(overhead, base, fs + fills + [Load(p)])
            == Launches(overhead, base, fs) + [Launch(base + Bytes(overhead, fs) + Bytes(overhead, fills), p)]
  {
    BytesConcat(overhead, fs, fills);
    LaunchesConcat(overhead, base, fs, fills);
    NoLaunches(overhead, base + Bytes(overhead, fs), fills);
    assert (fs + fills + [Load(p)])[..|fs + fills|] == fs + fills;
  }

  /** One more slot launches one more packet, behind its fillers. */
  lemma ExpandOneLaunch(c: Sizes, base: nat, e: Expansion, p: Packet)
    requires c.Sane()
    ensures var e1 := ExpandOne(c, e, Full(p));
            var start := base + Bytes(c.overhead, e.frames) + p.stamp + e.carry - e1.carry;
            && start >= 0
            && Launches(c.overhead, base, e1.frames) == Launches(c.overhead, base, e.frames) + [Launch(start, p)]
  {
    var gap := p.stamp + e.carry;
    FillerBytes(c, gap);
    FillersCarryNothing(c, gap);
    LaunchAfter(c.overhead, base, e.frames, FillerFrames(c, gap), p);
  }

  // ---------------------------------------------------------------- batches

  predicate AllFull(batches: seq<seq<Frame>>) {
    forall i :: 0 <= i < |batches| ==> |batches[i]| == 64
  }

  /** Batches hold 1 to 64 frames, and only the last may hold fewer than 64. */
  predicate WellBatched(batches: seq<seq<Frame>>) {
    forall i :: 0 <= i < |batches| ==>
      && 1 <= |batches[i]| <= 64
      && (i < |batches| - 1 ==> |batches[i]| == 64)
  }

  lemma {:induction false} FlatLength(batches: seq<seq<Frame>>)
    requires AllFull(batches)
    ensures |Flat(batches)| == |batches| * TRANSMIT_BUFFER_SIZE
  {
    if batches != [] {
      FlatLength(batches[..|batches| - 1]);
    }
  }

  /** Whether the call reaches its final flush: the last slot is not empty. */
  predicate Flushes(slots: seq<Slot>) {
    slots != [] && slots[|slots| - 1].Full?
  }

  /** The frames a call really hands over.  Without the final flush, those since
      the last full batch stay in a local buffer and are gone. */
  function HandedOver(slots: seq<Slot>, frames: seq<Frame>): (fs: seq<Frame>)
    ensures fs <= frames
  {
    if Flushes(slots) then frames
    else frames[..|frames| - |frames| % TRANSMIT_BUFFER_SIZE]
  }

  /** Everything is handed over exactly when the last slot is a packet, or the
      frames happen to fill whole batches. */
  lemma HandedOverAllIff(slots: seq<Slot>, frames: seq<Frame>)
    ensures HandedOver(slots, frames) == frames
            <==> Flushes(slots) || |frames| % 64 == 0
  {
  }

  /** State of the transmit buffer: `all` is what was produced so far. */
  ghost predicate Buffered(sent: seq<seq<Frame>>, buf: seq<Frame>, all: seq<Frame>) {
    AllFull(sent) && |buf| < TRANSMIT_BUFFER_SIZE && Flat(sent) + buf == all
  }

  /** The buffer's state, or, once the final flush is done, what was handed over. */
  ghost predicate Delivered(done: bool, sent: seq<seq<Frame>>, buf: seq<Frame>, all: seq<Frame>) {
    if done then WellBatched(sent) && Flat(sent) == all else Buffered(sent, buf, all)
  }

  /** Handing over a full buffer and starting an empty one changes nothing. */
  lemma Flushed(sent: seq<seq<Frame>>, buf: seq<Frame>)
    requires AllFull(sent)
    ensures Flat(sent + [buf]) == Flat(sent) + buf
    ensures |buf| == TRANSMIT_BUFFER_SIZE ==> AllFull(sent + [buf])
  {
    assert (sent + [buf])[..|sent|] == sent;
  }

  lemma Stored(sent: seq<seq<Frame>>, buf: seq<Frame>, all: seq<Frame>, f: Frame)
    requires Flat(sent) + buf == all
    ensures Flat(sent) + (buf + [f]) == all + [f]
  {
  }

  /** What the buffer holds, or what was handed over, once a frame was stored. */
  lemma Flush(sent: seq<seq<Frame>>, buf: seq<Frame>, all: seq<Frame>, last: bool)
    requires AllFull(sent) && 1 <= |buf| <= TRANSMIT_BUFFER_SIZE && Flat(sent) + buf == all
    ensures if |buf| == TRANSMIT_BUFFER_SIZE || last
            then Delivered(last, sent + [buf], [], all)
            else Delivered(last, sent, buf, all)
  {
    Flushed(sent, buf);
  }

  lemma Leftover(sent: seq<seq<Frame>>, buf: seq<Frame>, all: seq<Frame>)
    requires Buffered(sent, buf, all)
    ensures Flat(sent) == all[..|all| - |all| % TRANSMIT_BUFFER_SIZE]
  {
    FlatLength(sent);
  }

  /** What sending has produced for `slots`, starting with `carryIn`. */
  ghost predicate Progress(c: Sizes, slots: seq<Slot>, carryIn: nat,
                           e: Expansion, numBadPkts: int, numBadBytes: int)
    requires c.Sane()
  {
    && Expand(c, slots, carryIn) == e
    && numBadPkts == |e.frames| - |Survivors(slots)|
    && numBadBytes + 20 * numBadPkts == Gaps(Survivors(slots)) + carryIn - e.carry
  }

  lemma ProgressStep(c: Sizes, slots: seq<Slot>, carryIn: nat, e: Expansion,
                     numBadPkts: int, numBadBytes: int, pktsAdded: int, bytesAdded: int)
    requires c.Sane() && slots != [] && slots[|slots| - 1].Full?
    requires Progress(c, slots[..|slots| - 1], carryIn, e, numBadPkts, numBadBytes)
    requires var p := slots[|slots| - 1].pkt;
             var e1 := ExpandOne(c, e, Full(p));
             && pktsAdded == |e1.frames| - |e.frames| - 1
             && bytesAdded + 20 * pktsAdded == p.stamp + e.carry - e1.carry
    ensures Progress(c, slots, carryIn, ExpandOne(c, e, slots[|slots| - 1]),
                     numBadPkts + pktsAdded, numBadBytes + bytesAdded)
  {
    SurvivorsStep(slots);
  }

  lemma ProgressFull(c: Sizes, slots: seq<Slot>, i: nat, carryIn: nat, e: Expansion,
                     numBadPkts: int, numBadBytes: int, pktsAdded: int, bytesAdded: int)
    requires c.Sane() && i < |slots| && slots[i].Full?
    requires Progress(c, slots[..i], carryIn, e, numBadPkts, numBadBytes)
    requires var p := slots[i].pkt;
             var e1 := ExpandOne(c, e, Full(p));
             && pktsAdded == |e1.frames| - |e.frames| - 1
             && bytesAdded + 20 * pktsAdded == p.stamp + e.carry - e1.carry
    ensures Progress(c, slots[..i + 1], carryIn, ExpandOne(c, e, slots[i]),
                     numBadPkts + pktsAdded, numBadBytes + bytesAdded)
    ensures Flushes(slots[..i + 1])
  {
    assert slots[..i + 1][..i] == slots[..i] && slots[..i + 1][i] == slots[i];
    ProgressStep(c, slots[..i + 1], carryIn, e, numBadPkts, numBadBytes, pktsAdded, bytesAdded);
  }

  lemma ProgressNull(c: Sizes, slots: seq<Slot>, i: nat, carryIn: nat, e: Expansion, numBadPkts: int, numBadBytes: int)
    requires c.Sane() && i < |slots| && slots[i].Null?
    requires Progress(c, slots[..i], carryIn, e, numBadPkts, numBadBytes)
    ensures Progress(c, slots[..i + 1], carryIn, e, numBadPkts, numBadBytes)
    ensures !Flushes(slots[..i + 1])
  {
    assert slots[..i + 1][..i] == slots[..i] && slots[..i + 1][i] == slots[i];
  }

  // ---------------------------------------------------------------- idle line

  /** Fillers that keep an idle line busy. */
  function IdleFrames(n: nat, len: nat): (fs: seq<Frame>)
    ensures |fs| == n && forall i :: 0 <= i < n ==> fs[i] == Filler(len)
  {
    seq(n, i => Filler(len))
  }

  lemma {:induction false} IdleBytes(overhead: nat, n: nat, len: nat)
    ensures Bytes(overhead, IdleFrames(n, len)) == n * (len + overhead)
  {
    if n > 0 {
      IdleBytes(overhead, n - 1, len);
      assert IdleFrames(n, len)[..n - 1] == IdleFrames(n - 1, len);
      assert n * (len + overhead) == (n - 1) * (len + overhead) + (len + overhead);
    }
  }

  // ---------------------------------------------------------------- the class

  class RateLimiterCRC {
    const minPacketSize: nat
    const packetOverhead: nat
    var invalidPacketSize: nat
    var previousMissingDelay: nat
    /** Every batch handed to the network card, in order. */
    var batches: seq<seq<Frame>>
    /** The port's counters of filler frames and bytes. */
    var badPkts: nat
    var badBytes: int
    /** Position on the wire of the frame marked for a hardware timestamp. */
    ghost var marked: nat

    function Current(): Sizes
      reads this
    {
      Sizes(minPacketSize, packetOverhead, invalidPacketSize)
    }

    constructor (minPacketSize: nat, packetOverhead: nat, invalidPacketSize: nat)
      ensures Current() == Sizes(minPacketSize, packetOverhead, invalidPacketSize)
      ensures previousMissingDelay == 0 && batches == [] && badPkts == 0 && badBytes == 0
    {
      this.minPacketSize := minPacketSize;
      this.packetOverhead := packetOverhead;
      this.invalidPacketSize := invalidPacketSize;
      previousMissingDelay := 0;
      batches, badPkts, badBytes := [], 0, 0;
    }

    method SetInvalidPacketSize(size: nat)
      modifies this`invalidPacketSize
      ensures invalidPacketSize == size
    {
      invalidPacketSize := size;
    }

    method SendPackets(load: array<Slot>, numPackets: nat)
      requires numPackets <= load.Length && Current().Sane()
      modifies this`previousMissingDelay, this`batches, this`badPkts, this`badBytes
      ensures var e := Expand(Current(), load[..numPackets], old(previousMissingDelay));
              && previousMissingDelay == e.carry
              && old(batches) <= batches
              && WellBatched(batches[|old(batches)|..])
              && Flat(batches[|old(batches)|..]) == HandedOver(load[..numPackets], e.frames)
              && badPkts - old(badPkts) == |e.frames| - |Survivors(load[..numPackets])|
      ensures badBytes + 20 * badPkts - (old(badBytes) + 20 * old(badPkts))
              == Gaps(Survivors(load[..numPackets])) + old(previousMissingDelay) - previousMissingDelay
    {
      ghost var sent;
      var numBadPkts, numBadBytes;
      numBadPkts, numBadBytes, sent := SendAll(load, numPackets);
      assert batches[|old(batches)|..] == sent;
      badPkts := badPkts + numBadPkts;
      badBytes := badBytes + numBadBytes;
    }

    /** The outer loop of sending. */
    method SendAll(load: array<Slot>, numPackets: nat)
      returns (numBadPkts: nat, numBadBytes: int, ghost sent: seq<seq<Frame>>)
      requires numPackets <= load.Length && Current().Sane()
      modifies this`previousMissingDelay, this`batches
      ensures batches == old(batches) + sent
      ensures WellBatched(sent)
      ensures var slots := load[..numPackets];
              var e := Expand(Current(), slots, old(previousMissingDelay));
              && previousMissingDelay == e.carry
              && Progress(Current(), slots, old(previousMissingDelay), e, numBadPkts, numBadBytes)
              && Flat(sent) == HandedOver(slots, e.frames)
    {
      numBadPkts, numBadBytes, sent := 0, 0, [];
      var pkts := new Frame[TRANSMIT_BUFFER_SIZE];
      var sendBufIdx: nat := 0;
      ghost var carryIn := previousMissingDelay;
      ghost var e := Expansion([], carryIn);
      ghost var c := Current();
      ghost var slots := load[..numPackets];
      for i := 0 to numPackets
        invariant Current() == c && load[..numPackets] == slots
        invariant Progress(c, slots[..i], carryIn, e, numBadPkts, numBadBytes)
        invariant previousMissingDelay == e.carry && batches == old(batches) + sent
        invariant sendBufIdx < TRANSMIT_BUFFER_SIZE
        invariant Delivered(i == numPackets && Flushes(slots[..i]), sent, pkts[..sendBufIdx], e.frames)
      {
        if load[i].Null? {
          ProgressNull(c, slots, i, carryIn, e, numBadPkts, numBadBytes);
          continue;
        }
        var pkt := load[i].pkt;
        var pktsAdded, bytesAdded;
        sendBufIdx, pktsAdded, bytesAdded, sent :=
          SendOne(pkts, sendBufIdx, pkt, i + 1 == numPackets, old(batches), sent, e.frames);
        ProgressFull(c, slots, i, carryIn, e, numBadPkts, numBadBytes, pktsAdded, bytesAdded);
        numBadPkts, numBadBytes := numBadPkts + pktsAdded, numBadBytes + bytesAdded;
        e := ExpandOne(c, e, Full(pkt));
      }
      assert slots[..numPackets] == slots;
      if !Flushes(slots) {
        Leftover(sent, pkts[..sendBufIdx], e.frames);
      }
    }

    /** Stores one frame in the transmit buffer and hands the buffer over when
        it is full, or when this is the last frame of the call. */
    method Put(pkts: array<Frame>, bufIdx: nat, f: Frame, last: bool,
               ghost base: seq<seq<Frame>>, ghost sentBefore: seq<seq<Frame>>, ghost before: seq<Frame>)
      returns (sendBufIdx: nat, ghost sent: seq<seq<Frame>>)
      requires pkts.Length == TRANSMIT_BUFFER_SIZE && bufIdx < TRANSMIT_BUFFER_SIZE
      requires batches == base + sentBefore && Buffered(sentBefore, pkts[..bufIdx], before)
      modifies pkts, this`batches
      ensures sendBufIdx < TRANSMIT_BUFFER_SIZE && batches == base + sent
      ensures Delivered(last, sent, pkts[..sendBufIdx], before + [f])
    {
      pkts[bufIdx] := f;
      sendBufIdx, sent := bufIdx + 1, sentBefore;
      ghost var buf := pkts[..sendBufIdx];
      assert buf == old(pkts[..bufIdx]) + [f];
      Stored(sent, old(pkts[..bufIdx]), before, f);
      Flush(sent, buf, before + [f], last);
      if sendBufIdx >= TRANSMIT_BUFFER_SIZE || last {
        batches := batches + [pkts[..sendBufIdx]];
        sent := sent + [buf];
        sendBufIdx := 0;
      }
    }

    /** One round of the outer loop: the fillers of a packet, then the packet. */
    method SendOne(pkts: array<Frame>, bufIdx: nat, pkt: Packet, last: bool,
                   ghost base: seq<seq<Frame>>, ghost sentBefore: seq<seq<Frame>>, ghost before: seq<Frame>)
      returns (sendBufIdx: nat, numBadPkts: nat, numBadBytes: int, ghost sent: seq<seq<Frame>>)
      requires Current().Sane() && pkts.Length == TRANSMIT_BUFFER_SIZE && bufIdx < TRANSMIT_BUFFER_SIZE
      requires batches == base + sentBefore && Buffered(sentBefore, pkts[..bufIdx], before)
      modifies pkts, this`batches, this`previousMissingDelay
      ensures sendBufIdx < TRANSMIT_BUFFER_SIZE && batches == base + sent
      ensures var e := ExpandOne(Current(), Expansion(before, old(previousMissingDelay)), Full(pkt));
              && previousMissingDelay == e.carry
              && numBadPkts == |e.frames| - |before| - 1
              && numBadBytes + 20 * numBadPkts == pkt.stamp + old(previousMissingDelay) - e.carry
              && Delivered(last, sent, pkts[..sendBufIdx], e.frames)
    {
      var delay: nat := pkt.stamp + previousMissingDelay;
      ghost var all := before + FillerFrames(Current(), delay);
      delay, sendBufIdx, numBadPkts, numBadBytes, sent :=
        FillGap(pkts, bufIdx, delay, base, sentBefore, before);
      previousMissingDelay := delay;
      sendBufIdx, sent := Put(pkts, sendBufIdx, Load(pkt), last, base, sent, all);
    }

    /** The inner loop of sending: fills one gap, flushing full buffers. */
    method FillGap(pkts: array<Frame>, bufIdx: nat, gap: nat,
                   ghost base: seq<seq<Frame>>, ghost sentBefore: seq<seq<Frame>>, ghost before: seq<Frame>)
      returns (delay: nat, sendBufIdx: nat, numBadPkts: nat, numBadBytes: int, ghost sent: seq<seq<Frame>>)
      requires Current().Sane() && pkts.Length == TRANSMIT_BUFFER_SIZE && bufIdx < TRANSMIT_BUFFER_SIZE
      requires batches == base + sentBefore && Buffered(sentBefore, pkts[..bufIdx], before)
      modifies pkts, this`batches
      ensures delay == Remainder(Current(), gap) && sendBufIdx < TRANSMIT_BUFFER_SIZE
      ensures batches == base + sent
      ensures Buffered(sent, pkts[..sendBufIdx], before + FillerFrames(Current(), gap))
      ensures numBadPkts == |FillerFrames(Current(), gap)|
      ensures numBadBytes + 20 * numBadPkts == gap - delay
    {
      delay, sendBufIdx, numBadPkts, numBadBytes, sent := gap, bufIdx, 0, 0, sentBefore;
      ghost var c := Current();
      ghost var all := before;
      while delay >= minPacketSize + packetOverhead
        invariant Current() == c
        invariant batches == base + sent
        invariant sendBufIdx < TRANSMIT_BUFFER_SIZE
        invariant Buffered(sent, pkts[..sendBufIdx], all)
        invariant Filling(c, gap, before, delay, all, numBadPkts, numBadBytes)
      {
        var filler;
        filler, sendBufIdx, sent := FillOne(pkts, sendBufIdx, delay, base, sent, all);
        FillStep(c, gap, before, delay, all, numBadPkts, numBadBytes, filler);
        delay := delay - (filler.len + packetOverhead);
        all := all + [filler];
        numBadPkts := numBadPkts + 1;
        numBadBytes := numBadBytes + filler.len + packetOverhead - 20;
      }
    }

    /** One filler goes to the transmit buffer. */
    method FillOne(pkts: array<Frame>, bufIdx: nat, delay: nat,
                   ghost base: seq<seq<Frame>>, ghost sentBefore: seq<seq<Frame>>, ghost before: seq<Frame>)
      returns (filler: Frame, sendBufIdx: nat, ghost sent: seq<seq<Frame>>)
      requires Current().Sane() && Current().MinWire() <= delay
      requires pkts.Length == TRANSMIT_BUFFER_SIZE && bufIdx < TRANSMIT_BUFFER_SIZE
      requires batches == base + sentBefore && Buffered(sentBefore, pkts[..bufIdx], before)
      modifies pkts, this`batches
      ensures filler == Filler(FillerWire(Current(), delay) - packetOverhead)
      ensures sendBufIdx < TRANSMIT_BUFFER_SIZE && batches == base + sent
      ensures Buffered(sent, pkts[..sendBufIdx], before + [filler])
    {
      filler := GetDelayPacket(delay);
      sendBufIdx, sent := Put(pkts, bufIdx, filler, false, base, sentBefore, before);
    }

    method GetDelayPacket(delay: nat) returns (f: Frame)
      requires Current().Sane() && Current().MinWire() <= delay
      ensures f == Filler(FillerWire(Current(), delay) - packetOverhead)
    {
      var d := delay;
      if d > invalidPacketSize {
        if d > 2 * invalidPacketSize - 100 {
          d := invalidPacketSize;
        } else {
          d := d / 2;
        }
      }
      f := Filler(d - packetOverhead);
    }

    /** Hands over `numPackets` fillers of the preferred size.  The result is the
        number of bytes they take on the wire. */
    method EmptyDelay(numPackets: nat) returns (bytes: nat)
      requires numPackets <= MAX_INVALID_PACKETS
      modifies this`batches
      ensures batches == old(batches) + [IdleFrames(numPackets, invalidPacketSize)]
      ensures bytes == Bytes(packetOverhead, IdleFrames(numPackets, invalidPacketSize))
    {
      batches := batches + [IdleFrames(numPackets, invalidPacketSize)];
      bytes := numPackets * (invalidPacketSize + packetOverhead);
      IdleBytes(packetOverhead, numPackets, invalidPacketSize);
    }

    /** The same, with the first filler marked for a hardware timestamp. */
    method SendTimestampPacket(numPackets: nat) returns (bytes: nat)
      requires 1 <= numPackets <= MAX_INVALID_PACKETS
      modifies this`batches, this`marked
      ensures marked == |Flat(old(batches))|
      ensures batches == old(batches) + [IdleFrames(numPackets, invalidPacketSize)]
      ensures bytes == Bytes(packetOverhead, IdleFrames(numPackets, invalidPacketSize))
    {
      marked := |Flat(batches)|;
      bytes := EmptyDelay(numPackets);
    }
  }
}
