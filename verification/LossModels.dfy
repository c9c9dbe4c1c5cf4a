/**
 Seeded packet loss (src/moonem_common.h).

 The generator and the sums of thresholds are 64-bit, so both wrap around.
 */
module LossModels {
  import opened Integers
  import opened Sequences
  import opened Stages

  const INCREMENT: nat := 0x60be_e2be_e120_fc15

  type Word = x: nat | x < WORD witness 0

  /** Exclusive or of the low `k` bits. */
  function Xor(a: nat, b: nat, k: nat): (r: nat)
    ensures r < Pow2(k)
  {
    if k == 0 then 0 else 2 * Xor(a / 2, b / 2, k - 1) + Differ(a % 2, b % 2)
  }

  /** One bit of an exclusive or. */
  function Differ(a: nat, b: nat): (r: nat)
    ensures r < 2
  {
    if a == b then 0 else 1
  }

  /** Bit `i` of a number. */
  function Bit(x: nat, i: nat): nat {
    if i == 0 then x % 2 else Bit(x / 2, i - 1)
  }

  lemma XorHalf(a: nat, b: nat, k: nat)
    requires k > 0
    ensures Xor(a, b, k) / 2 == Xor(a / 2, b / 2, k - 1) && Xor(a, b, k) % 2 == Differ(a % 2, b % 2)
  {
  }

  lemma OtherBits(x: nat, a: nat, b: nat, half: nat, i: nat)
    requires i > 0 && x / 2 == half && Bit(half, i - 1) == Differ(Bit(a / 2, i - 1), Bit(b / 2, i - 1))
    ensures Bit(x, i) == Differ(Bit(a, i), Bit(b, i))
  {
  }

  /** The exclusive or, bit by bit. */
  lemma {:induction false} XorBits(a: nat, b: nat, k: nat, i: nat)
    requires i < k
    ensures Bit(Xor(a, b, k), i) == Differ(Bit(a, i), Bit(b, i))
  {
    XorHalf(a, b, k);
    if i > 0 {
      XorBits(a / 2, b / 2, k - 1, i - 1);
      OtherBits(Xor(a, b, k), a, b, Xor(a / 2, b / 2, k - 1), i);
    }
  }

  // ---------------------------------------------------------------- generator

  /** The two halves of a 128-bit product, combined. */
  function Folded(x: nat): Word {
    WordIsPow2();
    Xor(x / WORD, x % WORD, 64)
  }

  /** The output for a generator state. */
  function Mix(state: Word): Word {
    var m1 := Folded(state * 0xa3b1_9535_4a39_b70d);
    Folded(m1 * 0x1b03_7387_12fa_d5c9)
  }

  /** `m` has the bits of the exclusive or of the two halves of `x`. */
  predicate Halves(x: nat, m: nat, k: nat) {
    forall i {:trigger Bit(m, i)} :: 0 <= i < k ==> Bit(m, i) == Differ(Bit(x, i), Bit(x, k + i))
  }

  /** What is left of a number without its low `k` bits, and those bits. */
  function Upper(x: nat, k: nat): nat {
    if k == 0 then x else Upper(x / 2, k - 1)
  }

  function Lower(x: nat, k: nat): nat {
    if k == 0 then 0 else 2 * Lower(x / 2, k - 1) + x % 2
  }

  lemma {:induction false} UpperBit(x: nat, k: nat, i: nat)
    ensures Bit(Upper(x, k), i) == Bit(x, k + i)
  {
    if k > 0 {
      UpperBit(x / 2, k - 1, i);
    }
  }

  lemma {:induction false} LowerBit(x: nat, k: nat, i: nat)
    requires i < k
    ensures Bit(Lower(x, k), i) == Bit(x, i)
  {
    if i > 0 {
      LowerBit(x / 2, k - 1, i - 1);
    }
  }

  lemma {:induction false} Split(x: nat, k: nat)
    ensures x == Upper(x, k) * Pow2(k) + Lower(x, k) && Lower(x, k) < Pow2(k)
  {
    if k > 0 {
      Split(x / 2, k - 1);
      Doubled(Upper(x, k), Pow2(k - 1));
    }
  }

  lemma FoldBits(x: nat, k: nat)
    ensures Halves(x, Xor(Upper(x, k), Lower(x, k), k), k)
  {
    var upper, lower := Upper(x, k), Lower(x, k);
    forall i | 0 <= i < k ensures Bit(Xor(upper, lower, k), i) == Differ(Bit(x, i), Bit(x, k + i)) {
      XorBits(upper, lower, k, i);
      UpperBit(x, k, i);
      LowerBit(x, k, i);
    }
  }

  /** The bits determine a word. */
  lemma {:induction false} SameBits(a: nat, b: nat, k: nat)
    requires a < Pow2(k) && b < Pow2(k) && forall i :: 0 <= i < k ==> Bit(a, i) == Bit(b, i)
    ensures a == b
  {
    if k > 0 {
      forall i | 0 <= i < k - 1 ensures Bit(a / 2, i) == Bit(b / 2, i) {
        assert Bit(a, i + 1) == Bit(b, i + 1);
      }
      SameBits(a / 2, b / 2, k - 1);
      assert Bit(a, 0) == Bit(b, 0);
    }
  }

  lemma HalvesUnique(x: nat, m: nat, n: nat, k: nat)
    requires Halves(x, m, k) && Halves(x, n, k) && m < Pow2(k) && n < Pow2(k)
    ensures m == n
  {
    SameBits(m, n, k);
  }

  lemma WordQuotient(x: nat, upper: nat, lower: nat)
    requires x == upper * WORD + lower && lower < WORD
    ensures x / WORD == upper && x % WORD == lower
  {
  }

  lemma WordSplit(x: nat, k: nat)
    requires Pow2(k) == WORD
    ensures x / WORD == Upper(x, k) && x % WORD == Lower(x, k)
  {
    Split(x, k);
    WordQuotient(x, Upper(x, k), Lower(x, k));
  }

  lemma FoldIff(x: nat, m: nat, k: nat)
    requires m < Pow2(k)
    ensures m == Xor(Upper(x, k), Lower(x, k), k) <==> Halves(x, m, k)
  {
    FoldBits(x, k);
    if Halves(x, m, k) {
      HalvesUnique(x, m, Xor(Upper(x, k), Lower(x, k), k), k);
    }
  }

  lemma FoldedIff(x: nat, m: Word)
    ensures m == Folded(x) <==> Halves(x, m, 64)
  {
    WordIsPow2();
    WordSplit(x, 64);
    FoldIff(x, m, 64);
  }

  /** The output is the one word that two rounds of multiplying and folding lead
      to. */
  lemma MixIff(state: Word, middle: Word, out: Word)
    requires Halves(state * 0xa3b1_9535_4a39_b70d, middle, 64)
    ensures out == Mix(state) <==> Halves(middle * 0x1b03_7387_12fa_d5c9, out, 64)
  {
    FoldedIff(state * 0xa3b1_9535_4a39_b70d, middle);
    FoldedIff(middle * 0x1b03_7387_12fa_d5c9, out);
  }

  function Next(state: Word): Word { (state + INCREMENT) % WORD }

  /** The generator's state after `n` draws. */
  function Drawn(seed: Word, n: nat): Word {
    if n == 0 then seed else Next(Drawn(seed, n - 1))
  }

  /** The states in closed form. */
  lemma {:induction false} DrawnClosed(seed: Word, n: nat)
    ensures Drawn(seed, n) == (seed + n * 0x60be_e2be_e120_fc15) % 0x1_0000_0000_0000_0000
  {
    if n > 0 {
      DrawnClosed(seed, n - 1);
      ReducedAdd(seed + (n - 1) * INCREMENT);
    }
  }

  lemma AddMultiple(a: nat, m: nat)
    ensures (a + WORD * m) % WORD == a % WORD
  {
  }

  lemma ReducedAdd(a: nat)
    ensures (a % WORD + INCREMENT) % WORD == (a + INCREMENT) % WORD
  {
    assert a == a % WORD + WORD * (a / WORD);
    AddMultiple(a % WORD + INCREMENT, a / WORD);
  }

  lemma WordIsPow2()
    ensures WORD == Pow2(64)
  {
    assert Pow2(4) == 16;
    Pow2Sum(4, 4);
    assert Pow2(8) == 0x100;
    Pow2Sum(8, 8);
    assert Pow2(16) == 0x1_0000;
    Pow2Sum(16, 16);
    assert Pow2(32) == 0x1_0000_0000;
    Pow2Sum(32, 32);
  }

  /** An odd factor contributes nothing to a power of two. */
  lemma {:induction false} OddFactor(k: nat, n: nat, c: nat, q: nat) returns (t: nat)
    requires c % 2 == 1 && n * c == Pow2(k) * q
    ensures n == Pow2(k) * t
    decreases k
  {
    if k == 0 {
      t := n;
    } else {
      var half := n / 2;
      var p := Pow2(k - 1);
      assert Pow2(k) * q == 2 * (p * q);
      assert n * c == 2 * (half * c) + (n % 2) * c by {
        assert n == 2 * half + n % 2;
        assert (2 * half + n % 2) * c == 2 * half * c + (n % 2) * c;
      }
      assert (n % 2) * c == 2 * (p * q - half * c);
      assert n % 2 == 0;
      t := OddFactor(k - 1, half, c, q);
      assert n == 2 * (p * t) == Pow2(k) * t;
    }
  }

  /** The increment is odd, so a state recurs exactly after every 2^64 draws. */
  lemma GeneratorPeriod(seed: Word, i: nat, j: nat)
    requires i <= j
    ensures Drawn(seed, i) == Drawn(seed, j) <==> (j - i) % WORD == 0
  {
    DrawnClosed(seed, i);
    DrawnClosed(seed, j);
    assert seed + j * INCREMENT == seed + i * INCREMENT + (j - i) * INCREMENT;
    if Drawn(seed, i) == Drawn(seed, j) {
      SameState(seed + i * INCREMENT, j - i);
    } else if (j - i) % WORD == 0 {
      WholePeriods(seed + i * INCREMENT, j - i);
    }
  }

  lemma SameState(a: nat, n: nat)
    requires a % WORD == (a + n * INCREMENT) % WORD
    ensures n % WORD == 0
  {
    var b := a + n * INCREMENT;
    var q := b / WORD - a / WORD;
    assert n * INCREMENT == WORD * q;
    WordIsPow2();
    var t := OddFactor(64, n, INCREMENT, q);
    Multiple(t);
  }

  lemma WholePeriods(a: nat, n: nat)
    requires n % WORD == 0
    ensures a % WORD == (a + n * INCREMENT) % WORD
  {
    var t := n / WORD;
    assert n * INCREMENT == WORD * (t * INCREMENT);
    AddMultiple(a, t * INCREMENT);
  }

  lemma Multiple(t: nat)
    ensures (WORD * t) % WORD == 0
  {
  }

  // ---------------------------------------------------------------- models

  datatype LossType = NONE | UNIFORM | GE | NETEM

  /** `params` are the loss model's parameters: p, r, 1-h, 1-k for GE, and for
      each state of the NETEM chain the thresholds for staying in it and for
      leaving it within the same link state.  `mix` is the generator's output
      function; what is proved of the models holds for any. */
  datatype Config = Config(lossType: LossType, loss: Word, params: seq<Word>, mix: Word -> Word) {
    predicate Valid() { |params| == 8 }
  }

  type LossConfig = c: Config | c.Valid()
    witness Config(NONE, 0, [0, 0, 0, 0, 0, 0, 0, 0], Mix)

  /** The generator's state and the state of the loss chain. */
  datatype LossState = LossState(rng: Word, chain: nat)

  /** The chain states in which a packet is lost. */
  predicate InLossState(chain: nat) { chain >= 2 }

  /** Successor of a GE chain state for a draw. */
  function GeNext(c: LossConfig, chain: nat, x: Word): nat {
    if (chain != 0 && x < c.params[0]) || (chain == 0 && x >= c.params[1]) then 0 else 1
  }

  /** Successor of a NETEM chain state for a draw.  The sum of the thresholds
      wraps around. */
  function NetemNext(c: LossConfig, chain: nat, x: Word): nat
    requires chain < 4
  {
    var stay := c.params[chain * 2];
    if x < stay then chain
    else if x < (stay + c.params[chain * 2 + 1]) % WORD then Xor(chain, 3, 2)
    else Xor(chain, 2, 2)
  }

  /** The chain state is one the model knows. */
  predicate Known(c: LossConfig, s: LossState) {
    c.lossType.NETEM? ==> s.chain < 4
  }

  /** One packet: whether it is dropped, and the state after it. */
  function Draw(c: LossConfig, s: LossState): (r: (LossState, bool))
    requires Known(c, s)
  {
    var r1 := Next(s.rng);
    match c.lossType
    case NONE => (s, false)
    case UNIFORM => (s.(rng := r1), c.mix(r1) < c.loss)
    case GE =>
      var r2 := Next(r1);
      var chain := GeNext(c, s.chain, c.mix(r1));
      (LossState(r2, chain), c.mix(r2) < if chain == 0 then c.params[2] else c.params[3])
    case NETEM =>
      var stays := c.mix(r1) < c.params[s.chain * 2];
      (LossState(r1, NetemNext(c, s.chain, c.mix(r1))), if stays then s.chain >= 2 else s.chain < 2)
  }

  lemma XorStates()
    ensures Xor(0, 3, 2) == 3 && Xor(1, 3, 2) == 2 && Xor(2, 3, 2) == 1 && Xor(3, 3, 2) == 0
    ensures Xor(0, 2, 2) == 2 && Xor(1, 2, 2) == 3 && Xor(2, 2, 2) == 0 && Xor(3, 2, 2) == 1
  {
    XorTwo(0, 3);
    XorTwo(1, 3);
    XorTwo(2, 3);
    XorTwo(3, 3);
    XorTwo(0, 2);
    XorTwo(1, 2);
    XorTwo(2, 2);
    XorTwo(3, 2);
  }

  lemma XorTwo(a: nat, b: nat)
    ensures Xor(a, b, 2) == 2 * Differ(a / 2 % 2, b / 2 % 2) + Differ(a % 2, b % 2)
  {
    assert Xor(a / 2, b / 2, 1) == Differ(a / 2 % 2, b / 2 % 2);
  }

  /** NETEM: the chain stays within its four states, and a packet is dropped if
      and only if the state after it is a loss state. */
  lemma NetemStep(c: LossConfig, s: LossState)
    requires c.lossType.NETEM? && s.chain < 4
    ensures var (t, drop) := Draw(c, s); t.chain < 4 && (drop <==> InLossState(t.chain))
  {
    XorStates();
  }

  lemma DrawKnown(c: LossConfig, s: LossState)
    requires Known(c, s)
    ensures Known(c, Draw(c, s).0)
  {
    if c.lossType.NETEM? {
      NetemStep(c, s);
    }
  }

  // ---------------------------------------------------------------- runs

  /** The state after `n` packets. */
  function After(c: LossConfig, s: LossState, n: nat): (t: LossState)
    requires Known(c, s)
    ensures Known(c, t)
  {
    if n == 0 then s
    else
      DrawKnown(c, After(c, s, n - 1));
      Draw(c, After(c, s, n - 1)).0
  }

  /** Whether packet `i` is lost.  Packets do not influence their own fate. */
  predicate Lost(c: LossConfig, s: LossState, i: nat)
    requires Known(c, s)
  {
    Draw(c, After(c, s, i)).1
  }

  /** Draws taken for `n` packets. */
  function Draws(t: LossType, n: nat): nat {
    match t case NONE => 0 case UNIFORM => n case GE => 2 * n case NETEM => n
  }

  /** One packet takes its draws from the generator. */
  lemma DrawAdvances(c: LossConfig, s: LossState, seed: Word, n: nat)
    requires Known(c, s) && s.rng == Drawn(seed, Draws(c.lossType, n))
    ensures Draw(c, s).0.rng == Drawn(seed, Draws(c.lossType, n + 1))
  {
  }

  /** The generator's state depends on the seed and the number of packets only. */
  lemma {:induction false} GeneratorAfter(c: LossConfig, s: LossState, n: nat)
    requires Known(c, s)
    ensures After(c, s, n).rng == Drawn(s.rng, Draws(c.lossType, n))
  {
    if n > 0 {
      GeneratorAfter(c, s, n - 1);
      DrawAdvances(c, After(c, s, n - 1), s.rng, n - 1);
    }
  }

  /** Uniform loss in closed form. */
  lemma UniformLost(c: LossConfig, s: LossState, i: nat)
    requires c.lossType.UNIFORM?
    ensures Lost(c, s, i) <==> c.mix(Drawn(s.rng, i + 1)) < c.loss
  {
    GeneratorAfter(c, s, i);
    UniformDraw(c, After(c, s, i));
  }

  lemma UniformDraw(c: LossConfig, s: LossState)
    requires c.lossType.UNIFORM?
    ensures Draw(c, s).1 <==> c.mix(Next(s.rng)) < c.loss
  {
  }

  /** What one packet does to a GE chain: the draw `x` leads from state 0 to
      state 0 if it is at least parameter 1, and from any other state to state 0
      if it is below parameter 0, else to state 1; the draw `y` decides, against
      the parameter of the state that was entered. */
  predicate GeMove(c: LossConfig, from: nat, to: nat, x: Word, y: Word, drop: bool) {
    && (to == 0 || to == 1)
    && (to == 0 <==> if from == 0 then x >= c.params[1] else x < c.params[0])
    && (drop <==> if to == 0 then y < c.params[2] else y < c.params[3])
  }

  /** GE over whole runs: packet `i` takes the draws 2i+1 and 2i+2. */
  lemma GeLost(c: LossConfig, s: LossState, i: nat)
    requires c.lossType.GE?
    ensures GeMove(c, After(c, s, i).chain, After(c, s, i + 1).chain,
                   c.mix(Drawn(s.rng, 2 * i + 1)), c.mix(Drawn(s.rng, 2 * i + 2)), Lost(c, s, i))
  {
    GeneratorAfter(c, s, i);
    GeDraw(c, After(c, s, i));
  }

  lemma GeDraw(c: LossConfig, s: LossState)
    requires c.lossType.GE?
    ensures var (t, drop) := Draw(c, s);
            GeMove(c, s.chain, t.chain, c.mix(Next(s.rng)), c.mix(Next(Next(s.rng))), drop)
  {
  }

  /** If parameter 1 is zero, a chain in state 0 stays there; losses then are
      uniform, with parameter 2. */
  lemma {:induction false} GeStaysGood(c: LossConfig, s: LossState, i: nat)
    requires c.lossType.GE? && c.params[1] == 0 && s.chain == 0
    ensures After(c, s, i).chain == 0
    ensures Lost(c, s, i) <==> c.mix(Drawn(s.rng, 2 * i + 2)) < c.params[2]
  {
    if i > 0 {
      GeStaysGood(c, s, i - 1);
      GeLost(c, s, i - 1);
    }
    GeLost(c, s, i);
  }

  /** If parameter 0 is zero, a chain in another state never comes back to state
      0; losses then are uniform, with parameter 3. */
  lemma {:induction false} GeStaysBad(c: LossConfig, s: LossState, i: nat)
    requires c.lossType.GE? && c.params[0] == 0 && s.chain == 1
    ensures After(c, s, i).chain == 1
    ensures Lost(c, s, i) <==> c.mix(Drawn(s.rng, 2 * i + 2)) < c.params[3]
  {
    if i > 0 {
      GeStaysBad(c, s, i - 1);
      GeLost(c, s, i - 1);
    }
    GeLost(c, s, i);
  }

  /** Where a NETEM chain goes for the draw `x`: it stays, or it moves within its
      link state, or it changes the link state. */
  predicate NetemMoves(p: seq<nat>, from: nat, to: nat, x: nat)
    requires |p| == 8
  {
    match from
    case 0 => to == if x < p[0] then 0 else if x < (p[0] + p[1]) % 0x1_0000_0000_0000_0000 then 3 else 2
    case 1 => to == if x < p[2] then 1 else if x < (p[2] + p[3]) % 0x1_0000_0000_0000_0000 then 2 else 3
    case 2 => to == if x < p[4] then 2 else if x < (p[4] + p[5]) % 0x1_0000_0000_0000_0000 then 1 else 0
    case 3 => to == if x < p[6] then 3 else if x < (p[6] + p[7]) % 0x1_0000_0000_0000_0000 then 0 else 1
    case _ => false
  }

  lemma NetemTable(c: LossConfig, s: LossState)
    requires c.lossType.NETEM? && s.chain < 4
    ensures NetemMoves(c.params, s.chain, Draw(c, s).0.chain, c.mix(Next(s.rng)))
  {
    XorStates();
  }

  /** The chain never stays in the fourth state; the front end sees to that. */
  predicate LeavesFourth(c: LossConfig) { c.params[6] == 0 }

  /** NETEM over whole runs: lost packets are the visits to the loss states, and
      a loss in the fourth state is never followed by another loss. */
  lemma NetemLost(c: LossConfig, s: LossState, i: nat)
    requires c.lossType.NETEM? && s.chain < 4
    ensures NetemMoves(c.params, After(c, s, i).chain, After(c, s, i + 1).chain, c.mix(Drawn(s.rng, i + 1)))
    ensures After(c, s, i + 1).chain < 4
    ensures Lost(c, s, i) <==> InLossState(After(c, s, i + 1).chain)
    ensures LeavesFourth(c) && After(c, s, i).chain == 3 ==> !Lost(c, s, i)
  {
    GeneratorAfter(c, s, i);
    NetemStep(c, After(c, s, i));
    NetemTable(c, After(c, s, i));
  }

  // ---------------------------------------------------------------- the stage

  /** The loss model as a stage. */
  function Loss<P>(c: LossConfig): (LossState, P) -> (LossState, Option<P>) {
    (s: LossState, p: P) =>
      if !Known(c, s) then (s, None)
      else
        var (t, drop) := Draw(c, s);
        (t, if drop then None else Some(p))
  }

  /** The packets whose loss is `lost`. */
  function Select<P>(c: LossConfig, s: LossState, ps: seq<P>, lost: bool): seq<P>
    requires Known(c, s)
  {
    if ps == [] then []
    else
      var front := Select(c, s, ps[..|ps| - 1], lost);
      if Lost(c, s, |ps| - 1) == lost then front + [ps[|ps| - 1]] else front
  }

  /** The stage keeps order and decides by position alone. */
  lemma {:induction false} LossSelects<P>(c: LossConfig, s: LossState, ps: seq<P>)
    requires Known(c, s)
    ensures Run(Loss(c), s, ps)
            == Trace(After(c, s, |ps|), Select(c, s, ps, false), Select(c, s, ps, true))
  {
    if ps != [] {
      LossSelects(c, s, ps[..|ps| - 1]);
    }
  }

  lemma ApplyPartitions<P>(c: LossConfig, t: Trace<LossState, P, P>, p: P)
    ensures var u := Apply(Loss(c), t, p);
            multiset(u.kept) + multiset(u.dropped) == multiset(t.kept) + multiset(t.dropped) + multiset{p}
  {
    var (s, out) := Loss(c)(t.state, p);
    assert out == None || out == Some(p);
  }

  /** Nothing is duplicated and nothing disappears. */
  lemma {:induction false} LossPartitions<P>(c: LossConfig, s: LossState, ps: seq<P>)
    ensures var t := Run(Loss(c), s, ps);
            multiset(t.kept) + multiset(t.dropped) == multiset(ps)
  {
    if ps != [] {
      LossPartitions(c, s, ps[..|ps| - 1]);
      ApplyPartitions(c, Run(Loss(c), s, ps[..|ps| - 1]), ps[|ps| - 1]);
      MultisetSnoc(ps);
    }
  }

  lemma MultisetSnoc<P>(ps: seq<P>)
    requires ps != []
    ensures multiset(ps) == multiset(ps[..|ps| - 1]) + multiset{ps[|ps| - 1]}
  {
    assert ps == ps[..|ps| - 1] + [ps[|ps| - 1]];
  }

  /** Applying a loss model to a burst.  Asked for no model at all, the code
      keeps nothing and frees nothing. */
  function Applied<P>(c: LossConfig, s: LossState, ps: seq<P>): Trace<LossState, P, P> {
    if c.lossType.NONE? then Trace(s, [], []) else Run(Loss(c), s, ps)
  }

  /** Applying loss partitions the burst exactly when there is a model, or
      nothing to apply it to. */
  lemma AppliedPartitionsIff<P>(c: LossConfig, s: LossState, ps: seq<P>)
    ensures var t := Applied(c, s, ps);
            multiset(t.kept) + multiset(t.dropped) == multiset(ps) <==> !c.lossType.NONE? || ps == []
  {
    LossPartitions(c, s, ps);
    assert |multiset(ps)| == |ps|;
  }

  /** How a stream is cut into bursts does not matter to the losses. */
  lemma AppliedSplits<P>(c: LossConfig, s: LossState, a: seq<P>, b: seq<P>)
    ensures var t := Applied(c, s, a);
            var u := Applied(c, t.state, b);
            Applied(c, s, a + b) == Trace(u.state, t.kept + u.kept, t.dropped + u.dropped)
  {
    RunConcat(Loss(c), s, a, b);
  }

  /** Without a model the stage passes everything on. */
  lemma NoModelKeeps<P>(c: LossConfig, s: LossState, ps: seq<P>)
    requires c.lossType.NONE?
    ensures Run(Loss(c), s, ps) == Trace(s, ps, [])
  {
    forall i | 0 <= i < |ps| ensures Loss(c)(s, ps[i]) == (s, Some(ps[i])) {
    }
    KeepsAll(Loss(c), s, ps);
  }

  // ---------------------------------------------------------------- software loops

  /** Loss inside the software loops: uniform, and no draw if there is none. */
  function InlineLoss<P>(mix: Word -> Word, loss: Word): (Word, P) -> (Word, Option<P>) {
    (rng: Word, p: P) =>
      if loss == 0 then (rng, Some(p))
      else (Next(rng), if mix(Next(rng)) < loss then None else Some(p))
  }

  /** The inline loss keeps what the uniform model keeps.  It leaves the
      generator in the same state exactly if loss is configured, or the stream
      is a whole number of generator periods, such as empty. */
  lemma InlineIsUniform<P>(c: LossConfig, rng: Word, chain: nat, ps: seq<P>)
    requires c.lossType.UNIFORM?
    ensures var t := Run(InlineLoss(c.mix, c.loss), rng, ps);
            var u := Run(Loss(c), LossState(rng, chain), ps);
            t.kept == u.kept && (t.state == u.state.rng <==> c.loss > 0 || |ps| % WORD == 0)
  {
    if c.loss > 0 {
      InlineLossy(c, rng, chain, ps);
    } else {
      InlineLossless(c, rng, chain, ps);
      LossSelects(c, LossState(rng, chain), ps);
      GeneratorAfter(c, LossState(rng, chain), |ps|);
      GeneratorPeriod(rng, 0, |ps|);
    }
  }

  lemma {:induction false} InlineLossy<P>(c: LossConfig, rng: Word, chain: nat, ps: seq<P>)
    requires c.lossType.UNIFORM? && c.loss > 0
    ensures var t := Run(InlineLoss(c.mix, c.loss), rng, ps);
            Run(Loss(c), LossState(rng, chain), ps) == Trace(LossState(t.state, chain), t.kept, t.dropped)
  {
    if ps != [] {
      InlineLossy(c, rng, chain, ps[..|ps| - 1]);
    }
  }

  lemma InlineLossless<P>(c: LossConfig, rng: Word, chain: nat, ps: seq<P>)
    requires c.lossType.UNIFORM? && c.loss == 0
    ensures Run(InlineLoss(c.mix, c.loss), rng, ps) == Trace(rng, ps, [])
    ensures Run(Loss(c), LossState(rng, chain), ps).kept == ps
  {
    forall i | 0 <= i < |ps| ensures InlineLoss(c.mix, c.loss)(rng, ps[i]) == (rng, Some(ps[i])) {
    }
    KeepsAll(InlineLoss(c.mix, c.loss), rng, ps);
    ZeroKeepsAll(c, LossState(rng, chain), ps);
  }

  lemma ZeroKeepsAll<P>(c: LossConfig, s: LossState, ps: seq<P>)
    requires c.lossType.UNIFORM? && c.loss == 0
    ensures Run(Loss(c), s, ps).kept == ps
  {
    forall t: LossState, i | 0 <= i < |ps| ensures Loss(c)(t, ps[i]).1 == Some(ps[i]) {
      ZeroKeeps(c, t, ps[i]);
    }
    KeepsEvery(Loss(c), s, ps);
  }

  lemma ZeroKeeps<P>(c: LossConfig, s: LossState, p: P)
    requires c.lossType.UNIFORM? && c.loss == 0
    ensures Loss(c)(s, p).1 == Some(p)
  {
    UniformDraw(c, s);
  }

  // ---------------------------------------------------------------- the code

  /** What a loop over the packets has done to them so far. */
  predicate Sifted<P(==)>(c: LossConfig, start: LossState, done: seq<P>, s: LossState, kept: seq<P>, freed: seq<P>) {
    Run(Loss(c), start, done) == Trace(s, kept, freed)
  }

  lemma SiftStep<P>(c: LossConfig, start: LossState, bufs: seq<P>, i: nat, s: LossState, kept: seq<P>, freed: seq<P>)
    requires i < |bufs| && Known(c, s) && Sifted(c, start, bufs[..i], s, kept, freed)
    ensures var (next, drop) := Draw(c, s);
            if drop then Sifted(c, start, bufs[..i + 1], next, kept, freed + [bufs[i]])
            else Sifted(c, start, bufs[..i + 1], next, kept + [bufs[i]], freed)
  {
    RunStep(c, start, bufs[..i], bufs[i], bufs[..i + 1]);
  }

  /** One more packet for a run whose state the model knows. */
  lemma RunStep<P>(c: LossConfig, s: LossState, front: seq<P>, p: P, all: seq<P>)
    requires all == front + [p] && Known(c, Run(Loss(c), s, front).state)
    ensures var t := Run(Loss(c), s, front);
            var (next, drop) := Draw(c, t.state);
            Run(Loss(c), s, all)
            == if drop then Trace(next, t.kept, t.dropped + [p]) else Trace(next, t.kept + [p], t.dropped)
  {
    assert all[..|front|] == front;
  }

  lemma NetemDraw(c: LossConfig, s: LossState, stay: Word, keep: Word)
    requires c.lossType.NETEM? && s.chain < 4
    requires stay == c.params[s.chain * 2] && keep == c.params[s.chain * 2 + 1]
    ensures var r := Next(s.rng);
            var x := c.mix(r);
            Draw(c, s) ==
            if x < stay then (LossState(r, s.chain), s.chain >= 2)
            else if x < (stay + keep) % WORD then (LossState(r, Xor(s.chain, 3, 2)), s.chain < 2)
            else (LossState(r, Xor(s.chain, 2, 2)), s.chain < 2)
  {
  }

  /** The loss state of a receive loop, advanced in place. */
  class LossDevice {
    const config: LossConfig
    var rng: Word
    var chain: nat

    constructor (lossType: LossType, loss: Word, params: seq<Word>, seed: Word)
      requires |params| == 8
      ensures config == Config(lossType, loss, params, Mix) && State() == LossState(seed, 0)
    {
      config := Config(lossType, loss, params, Mix);
      rng, chain := seed, 0;
    }

    function State(): LossState
      reads this
    {
      LossState(rng, chain)
    }

    method Wyhash64() returns (x: Word)
      modifies this`rng
      ensures rng == Next(old(rng)) && x == config.mix(rng)
    {
      rng := (rng + INCREMENT) % WORD;
      x := config.mix(rng);
    }

    method GeDrop() returns (drop: bool)
      requires config.lossType.GE?
      modifies this
      ensures (State(), drop) == Draw(config, old(State()))
      ensures GeMove(config, old(chain), chain, config.mix(Next(old(rng))), config.mix(rng), drop)
    {
      var x := Wyhash64();
      if (chain != 0 && x < config.params[0]) || (chain == 0 && x >= config.params[1]) {
        chain := 0;
        var y := Wyhash64();
        drop := y < config.params[2];
      } else {
        chain := 1;
        var y := Wyhash64();
        drop := y < config.params[3];
      }
    }

    method NetemDrop() returns (drop: bool)
      requires config.lossType.NETEM? && chain < 4
      modifies this
      ensures (State(), drop) == Draw(config, old(State()))
    {
      var stay, keep := config.params[chain * 2], config.params[chain * 2 + 1];
      NetemDraw(config, State(), stay, keep);
      var x := Wyhash64();
      drop := NetemMove(x, stay, keep);
    }

    /** The move of the chain for the number `x`. */
    method NetemMove(x: Word, stay: Word, keep: Word) returns (drop: bool)
      modifies this`chain
      ensures if x < stay then chain == old(chain) && drop == (old(chain) >= 2)
              else if x < (stay + keep) % WORD then chain == Xor(old(chain), 3, 2) && drop == (old(chain) < 2)
              else chain == Xor(old(chain), 2, 2) && drop == (old(chain) < 2)
    {
      var drop12Keep34 := chain < 2;
      if x < stay {
        return !drop12Keep34;
      }
      if x < (stay + keep) % WORD {
        chain := Xor(chain, 3, 2);
      } else {
        chain := Xor(chain, 2, 2);
      }
      return drop12Keep34;
    }

    method Drop() returns (drop: bool)
      requires !config.lossType.NONE? && Known(config, State())
      modifies this
      ensures (State(), drop) == Draw(config, old(State()))
    {
      match config.lossType
      case UNIFORM =>
        var x := Wyhash64();
        drop := x < config.loss;
      case GE =>
        drop := GeDrop();
      case NETEM =>
        drop := NetemDrop();
    }

    /** Moves the packets that survive to the front of `bufsSend`. */
    method ApplyLoss<P>(bufs: seq<P>, bufsSend: array<P>) returns (acceptIndex: nat, freed: seq<P>)
      requires |bufs| <= bufsSend.Length && Known(config, State())
      modifies this, bufsSend
      ensures acceptIndex <= |bufs| && Known(config, State())
      ensures Trace(State(), bufsSend[..acceptIndex], freed) == Applied(config, old(State()), bufs)
    {
      acceptIndex, freed := 0, [];
      if config.lossType.NONE? {
        return;
      }
      ghost var kept: seq<P> := [];
      for i := 0 to |bufs|
        invariant acceptIndex <= i && Known(config, State())
        invariant bufsSend[..acceptIndex] == kept
        invariant Sifted(config, old(State()), bufs[..i], State(), kept, freed)
      {
        SiftStep(config, old(State()), bufs, i, State(), kept, freed);
        var drop := ApplyOne(bufs[i], bufsSend, acceptIndex);
        if drop {
          freed := freed + [bufs[i]];
        } else {
          acceptIndex := acceptIndex + 1;
          kept := kept + [bufs[i]];
        }
      }
      assert bufs[..|bufs|] == bufs;
    }

    /** One packet: behind the survivors, unless it is dropped. */
    method ApplyOne<P>(buf: P, bufsSend: array<P>, acceptIndex: nat) returns (drop: bool)
      requires acceptIndex < bufsSend.Length && !config.lossType.NONE? && Known(config, State())
      modifies this, bufsSend
      ensures Known(config, State()) && (State(), drop) == Draw(config, old(State()))
      ensures bufsSend[..acceptIndex] == old(bufsSend[..acceptIndex])
      ensures !drop ==> bufsSend[acceptIndex] == buf
    {
      DrawKnown(config, State());
      drop := Drop();
      if !drop {
        bufsSend[acceptIndex] := buf;
      }
    }
  }

  /** Loss does not look at packets: changing them before or after is the same. */
  lemma {:induction false} LossNatural<P, Q>(c: LossConfig, s: LossState, ps: seq<P>, f: P -> Q, qs: seq<Q>)
    requires |qs| == |ps| && forall i :: 0 <= i < |ps| ==> qs[i] == f(ps[i])
    ensures Run(Loss(c), s, qs).state == Run(Loss(c), s, ps).state
    ensures |Run(Loss(c), s, qs).kept| == |Run(Loss(c), s, ps).kept|
    ensures forall i :: 0 <= i < |Run(Loss(c), s, ps).kept| ==>
              Run(Loss(c), s, qs).kept[i] == f(Run(Loss(c), s, ps).kept[i])
  {
    if ps != [] {
      LossNatural(c, s, ps[..|ps| - 1], f, qs[..|ps| - 1]);
    }
  }
}
