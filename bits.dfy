/** Bitwise operations on non-negative integers, as the source performs them
    on C integers: a bit test is a division by a power of two, and `|` is
    `BitOr`, defined bit by bit. */
module Bits {

  function Pow2(n: nat): (p: nat)
    ensures p >= 1
  {
    if n == 0 then 1 else 2 * Pow2(n - 1)
  }

  /** Bit k of x in two's complement (Dafny's `/` rounds down for a positive
      divisor, so this holds for negative x as well). */
  function Bit(x: int, k: nat): (b: nat)
    ensures b < 2
  {
    (x / Pow2(k)) % 2
  }

  /** The bitwise or of two non-negative integers. */
  function BitOr(a: nat, b: nat): nat
    decreases a + b
  {
    if a == 0 then b
    else if b == 0 then a
    else 2 * BitOr(a / 2, b / 2) + (if a % 2 == 1 || b % 2 == 1 then 1 else 0)
  }

  /** Bit k of `a | b` is set exactly when bit k of a or of b is set. */
  lemma {:induction false} BitOrBit(a: nat, b: nat, k: nat)
    ensures Bit(BitOr(a, b), k) == 1 <==> Bit(a, k) == 1 || Bit(b, k) == 1
    decreases k
  {
    if a == 0 {
      ZeroDiv(k);
    } else if b == 0 {
      ZeroDiv(k);
    } else if k == 0 {
      BitOrHalves(a, b);
      BitZero(BitOr(a, b));
      BitZero(a);
      BitZero(b);
    } else {
      BitOrHalves(a, b);
      HalfBit(BitOr(a, b), k);
      HalfBit(a, k);
      HalfBit(b, k);
      BitOrBit(a / 2, b / 2, k - 1);
    }
  }

  /** The last bit of `a | b` and what lies above it. */
  lemma BitOrHalves(a: nat, b: nat)
    requires a > 0 && b > 0
    ensures BitOr(a, b) / 2 == BitOr(a / 2, b / 2)
    ensures BitOr(a, b) % 2 == (if a % 2 == 1 || b % 2 == 1 then 1 else 0)
  {
  }

  lemma BitZero(x: int)
    ensures Bit(x, 0) == x % 2
  {
  }

  lemma ZeroDiv(k: nat)
    ensures 0 / Pow2(k) == 0
  {
  }

  /** Bit k of x is bit k - 1 of x / 2. */
  lemma HalfBit(x: nat, k: nat)
    requires k > 0
    ensures Bit(x, k) == Bit(x / 2, k - 1)
  {
    var p := Pow2(k - 1);
    assert Pow2(k) == 2 * p;
    HalveDivision(x, p);
  }

  lemma HalveDivision(x: nat, p: nat)
    requires p > 0
    ensures x / (2 * p) == (x / 2) / p
  {
    var q := (x / 2) / p;
    var r := (x / 2) % p;
    assert x == q * (2 * p) + (2 * r + x % 2);
    DivisionUnique(x, 2 * p, q, 2 * r + x % 2);
  }

  lemma DivisionUnique(x: int, d: int, q: int, r: int)
    requires d > 0 && 0 <= r < d && x == q * d + r
    ensures x / d == q && x % d == r
  {
    var q' := x / d;
    var r' := x % d;
    assert x == q' * d + r';
    assert (q - q') * d == r' - r;
    if q > q' {
      AtLeastOnce(q - q', d);
    } else if q < q' {
      AtLeastOnce(q' - q, d);
    }
  }

  lemma AtLeastOnce(t: int, d: int)
    requires t >= 1 && d > 0
    ensures t * d >= d
  {
    assert t * d == (t - 1) * d + d;
    assert (t - 1) * d >= 0;
  }

  /** An or of a value whose low k bits are clear with a value below 2^k
      is their sum: the fields do not overlap. */
  lemma {:induction false} BitOrDisjoint(c: nat, b: nat, k: nat)
    requires b < Pow2(k)
    ensures BitOr(c * Pow2(k), b) == c * Pow2(k) + b
  {
    var x := c * Pow2(k);
    if k == 0 || x == 0 || b == 0 {
    } else {
      assert x == 2 * (c * Pow2(k - 1));
      assert x / 2 == c * Pow2(k - 1) && x % 2 == 0;
      BitOrDisjoint(c, b / 2, k - 1);
    }
  }

  /** An or of two values below 2^k stays below 2^k. */
  lemma {:induction false} BitOrBound(a: nat, b: nat, k: nat)
    requires a < Pow2(k) && b < Pow2(k)
    ensures BitOr(a, b) < Pow2(k)
  {
    if a == 0 || b == 0 {
    } else {
      BitOrBound(a / 2, b / 2, k - 1);
    }
  }

  /** Or-ing in a value whose low k bits are clear leaves the low k bits of
      the other operand as they were. */
  lemma {:induction false} BitOrLowBits(a: nat, b: nat, k: nat)
    requires a % Pow2(k) == 0
    ensures BitOr(a, b) % Pow2(k) == b % Pow2(k)
  {
    if k == 0 || a == 0 || b == 0 {
    } else {
      var p := Pow2(k - 1);
      assert Pow2(k) == 2 * p;
      assert a % 2 == 0 && (a / 2) % p == 0 by { HalveModulus(a, p); }
      BitOrLowBits(a / 2, b / 2, k - 1);
      var x := BitOr(a / 2, b / 2);
      assert BitOr(a, b) == 2 * x + b % 2;
      DoubleModulus(x, b % 2, p);
      DoubleModulus(b / 2, b % 2, p);
    }
  }

  /** (2x + e) mod 2p == 2 (x mod p) + e, for a bit e. */
  lemma DoubleModulus(x: nat, e: nat, p: nat)
    requires p > 0 && e < 2
    ensures (2 * x + e) % (2 * p) == 2 * (x % p) + e
  {
    var q := x / p;
    var r := x % p;
    assert 2 * x + e == q * (2 * p) + (2 * r + e);
    DivisionUnique(2 * x + e, 2 * p, q, 2 * r + e);
  }

  /** A multiple of 2p is even and its half is a multiple of p. */
  lemma HalveModulus(a: nat, p: nat)
    requires p > 0 && a % (2 * p) == 0
    ensures a % 2 == 0 && (a / 2) % p == 0
  {
    var q := a / (2 * p);
    assert a == q * (2 * p);
    assert a == 2 * (q * p);
    assert a / 2 == q * p;
    DivisionUnique(a / 2, p, q, 0);
  }

  /** Reading a field back: the word (hi * m + f) * p + lo, with the field
      f below m and the lower part lo below p, has f at position p. */
  lemma FieldOf(w: int, hi: int, f: int, lo: int, p: int, m: int)
    requires p > 0 && m > 0 && 0 <= f < m && 0 <= lo < p
    requires w == (hi * m + f) * p + lo
    ensures w / p == hi * m + f && (w / p) % m == f && w % p == lo
  {
    DivisionUnique(w, p, hi * m + f, lo);
    DivisionUnique(hi * m + f, m, hi, f);
  }

  /** Truncating a multiple of p to 16 bits leaves a multiple of p, when p
      divides 2^16. */
  lemma TruncatedMultiple(x: int, p: int)
    requires p > 0 && 0x1_0000 % p == 0 && x % p == 0
    ensures (x % 0x1_0000) % p == 0
  {
    var a := x / p;
    var b := 0x1_0000 / p;
    var q := x / 0x1_0000;
    assert x % 0x1_0000 == x - 0x1_0000 * q;
    assert x - 0x1_0000 * q == p * a - (p * b) * q;
    assert p * a - (p * b) * q == (a - b * q) * p;
    DivisionUnique(x % 0x1_0000, p, a - b * q, 0);
  }

  /** Values congruent modulo p * q are congruent modulo p. */
  lemma CongruentDivisor(x: int, y: int, p: int, q: int)
    requires p > 0 && q > 0 && x % (p * q) == y % (p * q)
    ensures x % p == y % p
  {
    var r := x % (p * q);
    assert x == (x / (p * q) * q) * p + r;
    assert y == (y / (p * q) * q) * p + r;
    assert x == (x / (p * q) * q + r / p) * p + r % p;
    assert y == (y / (p * q) * q + r / p) * p + r % p;
    DivisionUnique(x, p, x / (p * q) * q + r / p, r % p);
    DivisionUnique(y, p, y / (p * q) * q + r / p, r % p);
  }

  lemma Pow2Values()
    ensures Pow2(6) == 0x40 && Pow2(8) == 0x100 && Pow2(9) == 0x200
    ensures Pow2(12) == 0x1000 && Pow2(16) == 0x1_0000
  {
  }
}
