/** Products of reals, one fact at a time. */
module Reals {
  import opened Integers

  function Min(a: real, b: real): real { if a < b then a else b }

  function Max(a: real, b: real): real { if a > b then a else b }

  lemma MulOrder(a: real, b: real, x: real)
    requires a <= b && x >= 0.0
    ensures a * x <= b * x
  {
  }

  lemma MulStrict(a: real, b: real, x: real)
    requires a < b && x > 0.0
    ensures a * x < b * x
  {
  }

  lemma DivideMultiply(a: real, b: real)
    requires b > 0.0
    ensures a / b * b == a
  {
  }

  lemma DivideNonNegative(a: real, b: real)
    requires a >= 0.0 && b > 0.0
    ensures a / b >= 0.0
  {
  }

  /** A multiple of a real as repeated addition. */
  function Times(n: nat, x: real): real {
    if n == 0 then 0.0 else Times(n - 1, x) + x
  }

  lemma {:induction false} TimesIsProduct(n: nat, x: real)
    ensures Times(n, x) == n as real * x
  {
    if n > 0 {
      TimesIsProduct(n - 1, x);
      var m := (n - 1) as real;
      assert n as real == m + 1.0;
      assert (m + 1.0) * x == m * x + x;
    }
  }

  lemma {:induction false} TimesSum(a: nat, b: nat, x: real)
    ensures Times(a + b, x) == Times(a, x) + Times(b, x)
  {
    if b > 0 {
      TimesSum(a, b - 1, x);
    }
  }

  lemma {:induction false} TimesOrder(a: nat, b: nat, x: real)
    requires a <= b && x >= 0.0
    ensures Times(a, x) <= Times(b, x)
  {
    if a < b {
      TimesOrder(a, b - 1, x);
    }
  }

  lemma {:induction false} TimesStrict(n: nat, x: real, y: real)
    requires n > 0 && x < y
    ensures Times(n, x) < Times(n, y)
  {
    if n > 1 {
      TimesStrict(n - 1, x, y);
    }
  }

  lemma {:induction false} TimesWhole(n: nat, x: int)
    ensures Times(n, x as real) == Mul(n, x) as real
  {
    if n > 0 {
      TimesWhole(n - 1, x);
    }
  }

  /** A quotient of integers, rounded down. */
  lemma TimesFloor(n: nat, x: real, s: nat)
    requires n > 0 && Times(n, x) == s as real
    ensures x.Floor == Quotient(s, n)
  {
    var q := Quotient(s, n);
    QuotientBounds(s, n);
    TimesWhole(n, q);
    TimesWhole(n, q + 1);
    if x < q as real {
      TimesStrict(n, x, q as real);
    } else if (q + 1) as real < x {
      TimesStrict(n, (q + 1) as real, x);
    }
  }

  /** The same for integers. */
  function Amount(n: int, x: real): real { if n >= 0 then Times(n, x) else -Times(-n, x) }

  lemma AmountIsProduct(n: int, x: real)
    ensures Amount(n, x) == n as real * x
  {
    if n >= 0 {
      TimesIsProduct(n, x);
    } else {
      TimesIsProduct(-n, x);
      assert (-n) as real * x == -(n as real * x);
    }
  }

  lemma Distribute(a: real, b: real, x: real)
    ensures (a + b) * x == a * x + b * x
  {
  }

  lemma AmountSum(a: int, b: int, x: real)
    ensures Amount(a + b, x) == Amount(a, x) + Amount(b, x)
  {
    AmountIsProduct(a, x);
    AmountIsProduct(b, x);
    AmountIsProduct(a + b, x);
    Distribute(a as real, b as real, x);
  }

  lemma AmountNonNegative(n: int, x: real)
    requires n >= 0 && x >= 0.0
    ensures Amount(n, x) >= 0.0
  {
    TimesOrder(0, n, x);
  }

  lemma QuotientAbove(d: real, x: real, n: nat)
    requires x > 0.0 && n as real <= d / x
    ensures Times(n, x) <= d
  {
    TimesIsProduct(n, x);
    DivideMultiply(d, x);
    MulOrder(n as real, d / x, x);
  }

  lemma QuotientBelow(d: real, x: real, n: nat)
    requires x > 0.0 && d / x < n as real
    ensures d < Times(n, x)
  {
    TimesIsProduct(n, x);
    DivideMultiply(d, x);
    MulStrict(d / x, n as real, x);
  }

  /** A quotient rounded down is short by less than one divisor. */
  lemma FloorQuotient(d: real, x: real, n: nat)
    requires x > 0.0 && n == (d / x).Floor
    ensures Times(n, x) <= d < Times(n + 1, x)
  {
    QuotientAbove(d, x, n);
    QuotientBelow(d, x, n + 1);
  }
}
