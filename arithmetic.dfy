/**
 * Integer facts shared by the simulator and the prototype: powers of two
 * and how division and remainder by a product decompose.  The shifts and
 * masks of the C++ code are stated as division and remainder by powers of
 * two, and these lemmas are what lets the fields and the bitset values be
 * reasoned about.
 */
module Arithmetic {

  function Pow2(k: nat): (r: nat)
    ensures r >= 1
  {
    if k == 0 then 1 else 2 * Pow2(k - 1)
  }

  lemma Pow2Values()
    ensures Pow2(8) == 0x100 && Pow2(15) == 0x8000 && Pow2(16) == 0x1_0000
  {
    assert Pow2(4) == 0x10;
    assert Pow2(8) == 0x100;
    assert Pow2(12) == 0x1000;
  }

  lemma MulAtLeast(d: int, k: int)
    requires d > 0 && k >= 1
    ensures d * k >= d
  {
    assert d * k == d + d * (k - 1);
  }

  lemma MulMonotone(a: nat, x: int, y: int)
    requires x <= y
    ensures a * x <= a * y
  {
    assert a * y - a * x == a * (y - x);
  }

  /** Dividing by d leaves any n that is a multiple of d plus a remainder below d with that quotient and remainder. */
  lemma DivisionUnique(n: int, d: int, q: int, r: int)
    requires d > 0 && n == d * q + r && 0 <= r < d
    ensures n / d == q && n % d == r
  {
    var q0, r0 := n / d, n % d;
    assert d * (q - q0) == r0 - r;
    if q - q0 >= 1 {
      MulAtLeast(d, q - q0);
    } else if q0 - q >= 1 {
      MulAtLeast(d, q0 - q);
    }
  }

  /** A nonnegative quotient by a positive divisor is at most the dividend. */
  lemma QuotientBounded(x: nat, d: nat)
    requires d >= 1
    ensures 0 <= x / d <= x
  {
    MulMonotone(x / d, 1, d);
    assert x == d * (x / d) + x % d;
  }

  /** Dividing by a then by b is dividing by a * b; the remainder by a * b joins the two remainders. */
  lemma DivideTwice(x: nat, a: nat, b: nat)
    requires a >= 1 && b >= 1
    ensures x / a / b == x / (a * b)
    ensures x % (a * b) == x / a % b * a + x % a
  {
    var q, r := x / a, x % a;
    var q2, r2 := q / b, q % b;
    assert x == a * q + r;
    assert q == b * q2 + r2;
    assert a * q == (a * b) * q2 + a * r2 by {
      assert a * (b * q2 + r2) == a * (b * q2) + a * r2;
      assert a * (b * q2) == (a * b) * q2;
    }
    MulMonotone(a, r2, b - 1);
    assert a * (b - 1) == a * b - a;
    assert r2 * a == a * r2;
    DivisionUnique(x, a * b, q2, a * r2 + r);
  }
}
