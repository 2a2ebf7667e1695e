/** Python's integer bit operations as the programs use them: 1 << n, a | b
    and a & b.  Python ints are unbounded two's-complement numbers; with
    Dafny's floor division by a positive divisor, a / 2 is Python's a >> 1
    and a % 2 its lowest bit, also for negative a. */
module PyInt {

  /** 1 << n */
  function Pow2(n: nat): (r: nat)
    ensures r >= 1
  {
    if n == 0 then 1 else 2 * Pow2(n - 1)
  }

  /** a | b for non-negative a and b. */
  function Or(a: nat, b: nat): nat
  {
    if a == 0 then b
    else if b == 0 then a
    else 2 * Or(a / 2, b / 2) + (if a % 2 == 1 || b % 2 == 1 then 1 else 0)
  }

  /** a & b for any int a and a non-negative mask b. */
  function And(a: int, b: nat): nat
    decreases b, a
  {
    if b == 0 then 0
    else 2 * And(a / 2, b / 2) + (if a % 2 == 1 && b % 2 == 1 then 1 else 0)
  }

  // ---------------------------------------------------------------------
  // Division by powers of two.

  /** Euclidean division is unique: the quotient and remainder of any
      decomposition a == d * q + r with 0 <= r < d. */
  lemma DivModUnique(a: int, d: int, q: int, r: int)
    requires d > 0 && a == d * q + r && 0 <= r < d
    ensures a / d == q && a % d == r
  {
    var q', r' := a / d, a % d;
    assert d * q' + r' == a;
    if q' > q {
      MulMonotone(d, q + 1, q');
      assert false;
    } else if q' < q {
      MulMonotone(d, q' + 1, q);
      assert false;
    }
  }

  lemma MulMonotone(d: nat, x: int, y: int)
    requires x <= y
    ensures d * x <= d * y
  {
    assert d * y - d * x == d * (y - x);
    MulNonNegative(d, y - x);
  }

  lemma {:induction false} MulNonNegative(d: nat, e: nat)
    ensures d * e >= 0
  {
    if d > 0 {
      MulNonNegative(d - 1, e);
      assert d * e == (d - 1) * e + e;
    }
  }

  /** Halving and then dividing by 2^k is dividing by 2^(k+1). */
  lemma DivDiv(a: int, k: nat)
    ensures (a / 2) / Pow2(k) == a / Pow2(k + 1)
  {
    var d := Pow2(k);
    var q, r := a / 2, a % 2;
    var q2, r2 := q / d, q % d;
    assert q == d * q2 + r2;
    assert a == (2 * d) * q2 + (2 * r2 + r);
    DivModUnique(a, 2 * d, q2, 2 * r2 + r);
  }

  /** Shifting bit b in below x moves bit j of x to bit j + 1. */
  lemma ShiftInBit(r: int, x: int, b: int, j: nat)
    requires r == 2 * x + b && 0 <= b <= 1
    ensures r / 2 == x && r % 2 == b
    ensures (r / Pow2(j + 1)) % 2 == (x / Pow2(j)) % 2
  {
    DivModUnique(r, 2, x, b);
    DivDiv(r, j);
  }

  /** Dividing by 2^k and then halving is dividing by 2^(k+1). */
  lemma DivHalf(a: int, k: nat)
    ensures (a / Pow2(k)) / 2 == a / Pow2(k + 1)
  {
    var d := Pow2(k);
    var q, r := a / d, a % d;
    var q2, r2 := q / 2, q % 2;
    assert a == d * q + r;
    assert q == 2 * q2 + r2;
    MulDouble(q2, d);
    assert a == (2 * d) * q2 + (d * r2 + r);
    assert d * r2 + r < 2 * d;
    DivModUnique(a, 2 * d, q2, d * r2 + r);
  }

  /** The low k+1 bits of q are the low k bits of q / 2, shifted, and bit 0. */
  lemma ModDouble(q: int, k: nat)
    ensures q % Pow2(k + 1) == 2 * ((q / 2) % Pow2(k)) + q % 2
  {
    var d := Pow2(k);
    var m, r := (q / 2) / d, (q / 2) % d;
    assert q / 2 == d * m + r;
    assert q == (2 * d) * m + (2 * r + q % 2);
    DivModUnique(q, 2 * d, m, 2 * r + q % 2);
  }

  // ---------------------------------------------------------------------
  // Properties of | and &.

  /** ORing a power of two into a smaller number adds it. */
  lemma {:induction false} OrHigh(k: nat, a: nat)
    requires a < Pow2(k)
    ensures Or(Pow2(k), a) == Pow2(k) + a
  {
    if k > 0 && a != 0 {
      OrHigh(k - 1, a / 2);
    }
  }

  lemma {:induction false} OrCommutes(a: nat, b: nat)
    ensures Or(a, b) == Or(b, a)
  {
    if a != 0 && b != 0 {
      OrCommutes(a / 2, b / 2);
    }
  }

  /** ORing 1 into an even number sets bit 0. */
  lemma OrOne(a: nat)
    requires a % 2 == 0
    ensures Or(a, 1) == a + 1
  {
  }

  /** a & (2^k - 1) keeps the low k bits: it is a % 2^k. */
  lemma {:induction false} AndLowBits(a: int, k: nat)
    ensures And(a, Pow2(k) - 1) == a % Pow2(k)
    decreases k
  {
    if k > 0 {
      var m, h: nat := Pow2(k) - 1, Pow2(k - 1) - 1;
      ShiftInBit(m, h, 1, 0);
      assert And(a, m) == 2 * And(a / 2, h) + a % 2;
      AndLowBits(a / 2, k - 1);
      ModDouble(a, k - 1);
    }
  }

  /** A mask shifted left by k tests the bits of a shifted right by k. */
  lemma {:induction false} AndShift(a: int, b: nat, k: nat)
    ensures And(a, b * Pow2(k)) == Pow2(k) * And(a / Pow2(k), b)
    decreases k
  {
    if k > 0 {
      var h := Pow2(k - 1);
      MulDouble(b, h);
      AndEven(a, b * h);
      AndShift(a / 2, b, k - 1);
      DivDiv(a, k - 1);
      MulDouble(And(a / Pow2(k), b), h);
    }
  }

  lemma MulDouble(x: int, h: int)
    ensures x * (2 * h) == 2 * (x * h) && (2 * h) * x == 2 * (h * x) && h * x == x * h
  {
  }

  /** A mask with bit 0 clear ignores bit 0 of a. */
  lemma AndEven(a: int, m: nat)
    ensures And(a, 2 * m) == 2 * And(a / 2, m)
  {
  }

  /** a & 2^k is 2^k exactly when bit k of a is set, and 0 otherwise. */
  lemma AndPow2(a: int, k: nat)
    ensures And(a, Pow2(k)) == Pow2(k) * ((a / Pow2(k)) % 2)
  {
    AndShift(a, 1, k);
  }
}
