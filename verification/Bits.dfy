/** Bitwise operators on natural numbers, bit by bit, and the few arithmetic
    readings of them that the generated code relies on. */
module Bits {

  function Pow2(n: nat): (p: nat)
    ensures p >= 1
  {
    if n == 0 then 1 else 2 * Pow2(n - 1)
  }

  function And(a: nat, b: nat): (r: nat)
    ensures r <= a && r <= b
  {
    if a == 0 || b == 0 then 0
    else 2 * And(a / 2, b / 2) + if a % 2 == 1 && b % 2 == 1 then 1 else 0
  }

  function Or(a: nat, b: nat): (r: nat)
    ensures r >= a && r >= b
  {
    if a == 0 then b
    else if b == 0 then a
    else 2 * Or(a / 2, b / 2) + if a % 2 == 1 || b % 2 == 1 then 1 else 0
  }

  lemma {:induction false} Pow2Sum(a: nat, b: nat)
    ensures Pow2(a + b) == Pow2(a) * Pow2(b)
  {
    if a > 0 {
      Pow2Sum(a - 1, b);
      assert Pow2(a + b) == 2 * Pow2(a + b - 1);
    }
  }

  lemma ScaledGap(d: nat, a: int, b: int)
    requires a < b
    ensures d * a + d <= d * b
  {
    assert d * (b - a - 1) >= 0;
  }

  lemma DivModUnique(x: nat, d: nat, q: nat, r: nat)
    requires r < d && x == d * q + r
    ensures x / d == q && x % d == r
  {
    if q < x / d {
      ScaledGap(d, q, x / d);
    } else if x / d < q {
      ScaledGap(d, x / d, q);
    }
  }

  /** Division by an even number, one bit at a time. */
  lemma HalfMod(x: nat, p: nat, d: nat)
    requires p >= 1 && d == 2 * p
    ensures x % d == 2 * (x / 2 % p) + x % 2
    ensures x / d == x / 2 / p
  {
    var q, r := x / 2 / p, x / 2 % p;
    assert d * q == 2 * (p * q);
    DivModUnique(x, d, q, 2 * r + x % 2);
  }

  lemma AndOdd(a: nat, h: nat)
    ensures And(a, 2 * h + 1) == 2 * And(a / 2, h) + a % 2
  {}

  /** Masking with 2^n - 1 keeps the remainder. */
  lemma {:induction false} AndMask(a: nat, n: nat)
    ensures And(a, Pow2(n) - 1) == a % Pow2(n)
  {
    if n > 0 {
      AndOdd(a, Pow2(n - 1) - 1);
      AndMask(a / 2, n - 1);
      HalfMod(a, Pow2(n - 1), Pow2(n));
    }
  }

  /** Or of bits below 2^n with bits from 2^n up is addition. */
  lemma {:induction false} OrDisjoint(a: nat, b: nat, n: nat)
    requires a < Pow2(n) && b % Pow2(n) == 0
    ensures Or(a, b) == a + b
  {
    if a > 0 && b > 0 {
      HalfMod(b, Pow2(n - 1), Pow2(n));
      OrDisjoint(a / 2, b / 2, n - 1);
    }
  }

  /** i modulo e, by subtraction: for a modulus that is not a literal. */
  function Rem(i: nat, e: nat): (r: nat)
    requires e >= 1
    ensures r < e && r <= i
  {
    if i < e then i else Rem(i - e, e)
  }

  lemma {:induction false} RemUnique(x: nat, d: nat, q: nat, r: nat)
    requires r < d && x == d * q + r
    ensures Rem(x, d) == r
    decreases q
  {
    if q > 0 {
      assert x - d == d * (q - 1) + r && d * (q - 1) >= 0;
      RemUnique(x - d, d, q - 1, r);
    } else {
      assert d * q == 0;
    }
  }

  lemma RemMod(x: nat, d: nat)
    requires d >= 1
    ensures Rem(x, d) == x % d
  {
    assert x == d * (x / d) + x % d;
    RemUnique(x, d, x / d, x % d);
  }

  /** AndMask for a modulus that is not a literal. */
  lemma AndRem(a: nat, n: nat)
    ensures And(a, Pow2(n) - 1) == Rem(a, Pow2(n))
  {
    AndMask(a, n);
    RemMod(a, Pow2(n));
  }

  lemma {:induction false} Pow2Grows(n: nat)
    requires n >= 7
    ensures Pow2(n) >= 128
  {
    if n > 7 {
      Pow2Grows(n - 1);
    } else {
      assert Pow2(4) == 16;
    }
  }
}
