/** Integer functions: absolute values, minima, products and powers of two. */
module Integers {

  /** The number of values of an unsigned integer of 64 bits. */
  const WORD: nat := 0x1_0000_0000_0000_0000

  function Abs(x: int): nat { if x < 0 then -x else x }

  function Least(a: nat, b: nat): nat { if a < b then a else b }

  /** The product `n * x`, as a sum. */
  function Mul(n: nat, x: int): (r: int)
    ensures x >= 0 ==> r >= 0
  {
    if n == 0 then 0 else Mul(n - 1, x) + x
  }

  lemma {:induction false} MulIsProduct(n: nat, x: int)
    ensures Mul(n, x) == n * x
  {
    if n > 0 {
      MulIsProduct(n - 1, x);
      assert n * x == (n - 1) * x + x;
    }
  }

  function Quotient(a: nat, b: nat): nat
    requires b > 0
  {
    a / b
  }

  lemma QuotientBounds(a: nat, b: nat)
    requires b > 0
    ensures Mul(b, Quotient(a, b)) <= a < Mul(b, Quotient(a, b) + 1)
  {
    MulIsProduct(b, a / b);
    MulIsProduct(b, a / b + 1);
    assert b * (a / b + 1) == b * (a / b) + b;
  }

  function Pow2(k: nat): (r: nat)
    ensures r >= 1
  {
    if k == 0 then 1 else 2 * Pow2(k - 1)
  }

  lemma Doubled(x: nat, y: nat)
    ensures x * (2 * y) == 2 * (x * y)
  {
  }

  lemma {:induction false} Pow2Sum(a: nat, b: nat)
    ensures Pow2(a + b) == Pow2(a) * Pow2(b)
  {
    if b > 0 {
      Pow2Sum(a, b - 1);
      Doubled(Pow2(a), Pow2(b - 1));
    }
  }
}
