/**
 * IEEE 754-2008 binary32 values (section 3.4 interchange format) as 32-bit
 * patterns: sign bit, 8-bit biased exponent, 23-bit trailing significand.
 *
 * The settings registers hold small integers as `f32`. This module gives the
 * exact pattern of every integer below 2^24 (Rust's `n as f32` for a `u8` or
 * `u16`), Rust's float equality against such an integer (the `1.0 =>` match
 * arms), and Rust's saturating float-to-unsigned cast (`val as u8`,
 * `val as u16`) on every pattern.
 */
module Float32 {
  import opened Words

  const SignUnit: nat := 0x8000_0000
  /** 2^23: the weight of the lowest exponent bit. */
  const ExponentUnit: nat := 0x80_0000
  const Bias: nat := 127
  /** Biased exponent of infinities and NaNs. */
  const Special: nat := 0xFF
  /** The pattern of -0.0. */
  const NegativeZero: U32 := 0x8000_0000
  /** Every integer below this bound has an exact binary32 representation. */
  const ExactLimit: nat := 0x100_0000

  function Sign(bits: U32): nat { bits / SignUnit }
  function BiasedExponent(bits: U32): nat { (bits / ExponentUnit) % 0x100 }
  function Fraction(bits: U32): nat { bits % ExponentUnit }

  lemma Pow2Constants()
    ensures Pow2(8) == 0x100 && Pow2(16) == 0x1_0000 && Pow2(23) == ExponentUnit && Pow2(24) == ExactLimit
  {
    assert Pow2(4) == 16;
    assert Pow2(8) == 16 * Pow2(4) by { Pow2Add(4, 4); }
    assert Pow2(16) == Pow2(8) * Pow2(8) by { Pow2Add(8, 8); }
    assert Pow2(23) == Pow2(16) * Pow2(7) by { Pow2Add(16, 7); }
    assert Pow2(24) == 2 * Pow2(23);
  }

  /** Position of the leading one bit of `n`. */
  function Log2(n: nat): nat
    requires n >= 1
  {
    if n == 1 then 0 else 1 + Log2(n / 2)
  }

  lemma {:induction false} Log2Bounds(n: nat)
    requires n >= 1
    ensures Pow2(Log2(n)) <= n < Pow2(Log2(n) + 1)
  {
    if n > 1 {
      Log2Bounds(n / 2);
    }
  }

  /** `x >> k`: `x` divided by 2^k, rounded down. */
  function ShiftRight(x: nat, k: nat): nat
  {
    if k == 0 then x else ShiftRight(x / 2, k - 1)
  }

  lemma {:induction false} ShiftRightOfMultiple(n: nat, k: nat)
    ensures ShiftRight(n * Pow2(k), k) == n
  {
    if k > 0 {
      var y := n * Pow2(k - 1);
      assert n * Pow2(k) == 2 * y;
      ShiftRightOfMultiple(n, k - 1);
    }
  }

  lemma {:induction false} ShiftRightBound(x: nat, a: nat, k: nat)
    requires x < a * Pow2(k)
    ensures ShiftRight(x, k) < a
  {
    if k > 0 {
      var y := a * Pow2(k - 1);
      assert a * Pow2(k) == 2 * y;
      ShiftRightBound(x / 2, a, k - 1);
    }
  }

  lemma {:induction false} MulStrict(a: nat, b: nat, c: nat)
    requires a < b && c > 0
    ensures a * c < b * c
  {
    if c > 1 {
      MulStrict(a, b, c - 1);
      assert a * c == a * (c - 1) + a;
      assert b * c == b * (c - 1) + b;
    }
  }

  /** The exponent of the leading bit of a nonzero integer in the exact range. */
  function Exponent(n: nat): (e: nat)
    requires 1 <= n < ExactLimit
    ensures e <= 23
  {
    ExponentBounds(n);
    Log2(n)
  }

  lemma ExponentBounds(n: nat)
    requires 1 <= n < ExactLimit
    ensures Log2(n) <= 23 && Pow2(Log2(n)) <= n < 2 * Pow2(Log2(n))
  {
    Log2Bounds(n);
    Pow2Constants();
    if Log2(n) > 23 {
      Pow2Monotone(24, Log2(n));
    }
  }

  /** The 23 bits that follow the leading one bit of `n`. */
  function TrailingSignificand(n: nat): (frac: nat)
    requires 1 <= n < ExactLimit
    ensures frac < ExponentUnit
  {
    ExponentBounds(n);
    SignificandFacts(n, Exponent(n));
    ShiftLeftIsProduct(n, 23 - Exponent(n));
    ShiftLeft(n, 23 - Exponent(n)) - ExponentUnit
  }

  /** `x << k`: `x` doubled `k` times. */
  function ShiftLeft(x: nat, k: nat): nat
    decreases k
  {
    if k == 0 then x else ShiftLeft(2 * x, k - 1)
  }

  lemma {:induction false} ShiftLeftIsProduct(x: nat, k: nat)
    ensures ShiftLeft(x, k) == x * Pow2(k)
    decreases k
  {
    if k > 0 {
      ShiftLeftIsProduct(2 * x, k - 1);
    }
  }

  /** The leading one bit and the trailing significand make up `n`, shifted to bit 23. */
  lemma TrailingSignificandShift(n: nat)
    requires 1 <= n < ExactLimit
    ensures ExponentUnit + TrailingSignificand(n) == n * Pow2(23 - Exponent(n))
  {
    ExponentBounds(n);
    SignificandFacts(n, Exponent(n));
    ShiftLeftIsProduct(n, 23 - Exponent(n));
  }

  lemma SignificandFacts(n: nat, e: nat)
    requires e <= 23 && Pow2(e) <= n < 2 * Pow2(e)
    ensures 0 <= (n - Pow2(e)) * Pow2(23 - e) < ExponentUnit
    ensures ExponentUnit + (n - Pow2(e)) * Pow2(23 - e) == n * Pow2(23 - e)
  {
    var s := Pow2(23 - e);
    var p := Pow2(e);
    SignificandSplit(n, p, s);
    assert p * s == ExponentUnit by {
      Pow2Add(e, 23 - e);
      Pow2Constants();
    }
  }

  lemma SignificandSplit(n: nat, p: nat, s: nat)
    requires p <= n < 2 * p && s > 0
    ensures 0 <= (n - p) * s < p * s
    ensures n * s == p * s + (n - p) * s
  {
    MulStrict(n - p, p, s);
  }

  /** The binary32 pattern of the integer `n` (`n as f32`, exact below 2^24). */
  function FromNat(n: nat): (bits: U32)
    requires n < ExactLimit
    ensures bits < SignUnit
  {
    if n == 0 then 0 else (Bias + Exponent(n)) * ExponentUnit + TrailingSignificand(n)
  }

  /** Rust's `val == n as f32`: float equality, so -0.0 equals 0.0 and NaN equals nothing. */
  predicate Equals(bits: U32, n: nat)
    requires n < ExactLimit
  {
    bits == FromNat(n) || (n == 0 && bits == NegativeZero)
  }

  /**
   * Rust's `val as uN` for `N == width` (saturating since Rust 1.45): NaN
   * gives 0, every negative value gives 0, a value of 2^N or more (including
   * +infinity) gives 2^N - 1, and everything else truncates toward zero.
   */
  function ToUnsigned(bits: U32, width: nat): (r: nat)
    requires width <= 24
    ensures width == 8 ==> r < 0x100
    ensures width == 16 ==> r < 0x1_0000
  {
    var biased := BiasedExponent(bits);
    var frac := Fraction(bits);
    if biased == Special && frac != 0 then 0
    else if Sign(bits) == 1 then 0
    else if biased == Special || biased >= Bias + width then Pow2(width) - 1
    else if biased < Bias then 0
    else
      var e := biased - Bias;
      Pow2Add(e + 1, 23 - e);
      Pow2Constants();
      Pow2Monotone(e + 1, width);
      ShiftRightBound(ExponentUnit + frac, Pow2(e + 1), 23 - e);
      ShiftRight(ExponentUnit + frac, 23 - e)
  }

  /** Casting the pattern of an integer back to a wide enough unsigned type gives the integer. */
  lemma {:induction false} ToUnsignedFromNat(n: nat, width: nat)
    requires width <= 24 && n < Pow2(width)
    ensures n < ExactLimit
    ensures ToUnsigned(FromNat(n), width) == n
  {
    Pow2Constants();
    Pow2Monotone(width, 24);
    if n > 0 {
      var e, frac := Exponent(n), TrailingSignificand(n);
      ExponentBounds(n);
      TrailingSignificandShift(n);
      var bits := FromNat(n);
      assert bits == (Bias + e) * ExponentUnit + frac;
      assert bits / ExponentUnit == Bias + e;
      assert BiasedExponent(bits) == Bias + e;
      assert Fraction(bits) == frac;
      assert Sign(bits) == 0;
      if e >= width {
        Pow2Monotone(width, e);
        assert false;
      }
      ShiftRightOfMultiple(n, 23 - e);
    }
  }

  /** `n as f32` is injective on the exact range. */
  lemma FromNatInjective(m: nat, n: nat)
    requires m < ExactLimit && n < ExactLimit
    ensures FromNat(m) == FromNat(n) <==> m == n
  {
    if FromNat(m) == FromNat(n) {
      Pow2Constants();
      ToUnsignedFromNat(m, 24);
      ToUnsignedFromNat(n, 24);
    }
  }

  /** The pattern of `m` is not float-equal to any other integer of the exact range. */
  lemma FromNatNotEquals(m: nat, n: nat)
    requires m < ExactLimit && n < ExactLimit && m != n
    ensures !Equals(FromNat(m), n)
  {
    FromNatInjective(m, n);
  }
}
