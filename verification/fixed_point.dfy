/**
  Integer primitives of Q15 fixed-point arithmetic as the C code and the
  RISC-V vector unit perform them: the int16_t/int32_t ranges, signed
  saturation, 32-bit wrap-around, arithmetic right shift and the
  round-to-nearest-up ("rnu") rounding of section 3.8 of the RISC-V "V"
  extension 1.0.

  C's `x << 15` on a (possibly negative) int32 is modelled as `x * 32768`
  and C's `x >> d` on a signed value as floor division by 2^d (arithmetic
  shift); Dafny's `/` with a positive divisor is floor division.
 */
module FixedPoint {

  const MinInt16: int := -0x8000
  const MaxInt16: int := 0x7fff
  const MinInt32: int := -0x8000_0000
  const MaxInt32: int := 0x7fff_ffff

  /** A Q15 sample, the value of a C int16_t. */
  type Int16 = x: int | -0x8000 <= x <= 0x7fff

  /** The value of a C int32_t, one lane of a 32-bit vector element. */
  type Int32 = x: int | -0x8000_0000 <= x <= 0x7fff_ffff

  predicate InInt16(x: int) { MinInt16 <= x <= MaxInt16 }

  predicate InInt32(x: int) { MinInt32 <= x <= MaxInt32 }

  function Pow2(d: nat): (p: int)
    ensures p >= 1
  {
    if d == 0 then 1 else 2 * Pow2(d - 1)
  }

  lemma Pow2Q15()
    ensures Pow2(14) == 0x4000 && Pow2(15) == 0x8000
  {
    assert Pow2(2) == 4;
    assert Pow2(4) == 16;
    assert Pow2(6) == 64;
    assert Pow2(8) == 256;
    assert Pow2(10) == 1024;
    assert Pow2(12) == 4096;
    assert Pow2(14) == 0x4000;
  }

  /** Signed saturation to 16 bits: the clamp of the scalar kernel and the
      "clip" of the vector fixed-point instructions. */
  function Clip16(x: int): Int16
  {
    if x > MaxInt16 then MaxInt16 else if x < MinInt16 then MinInt16 else x
  }

  /** Two's complement wrap-around to 32 bits, what a 32-bit vector lane
      keeps of an out-of-range sum or shift. */
  function Wrap32(x: int): (r: Int32)
    ensures (x - r) % 0x1_0000_0000 == 0
    ensures InInt32(x) ==> r == x
  {
    (x - MinInt32) % 0x1_0000_0000 + MinInt32
  }

  /** Arithmetic shift right by d. */
  function Asr(x: int, d: nat): int
  {
    x / Pow2(d)
  }

  /** Bit k of the two's complement representation of x. */
  function Bit(x: int, k: nat): int
  {
    (x / Pow2(k)) % 2
  }

  /** roundoff_signed(v, d) of section 3.8 of the RISC-V "V" extension 1.0
      under vxrm = 0 (rnu): shift right by d and add back the most
      significant discarded bit. */
  function RoundoffRnu(v: int, d: nat): int
  {
    if d == 0 then v else Asr(v, d) + Bit(v, d - 1)
  }

  lemma MulNonneg(a: int, b: int)
    requires a >= 0 && b >= 0
    ensures a * b >= 0
  {}

  lemma Distrib(a: int, b: int, m: int)
    ensures (a - b) * m == a * m - b * m
  {}

  lemma MulMono(a: int, c: int, b: int)
    requires 0 <= a <= c && b >= 0
    ensures a * b <= c * b
  {
    Distrib(c, a, b);
    MulNonneg(c - a, b);
  }

  /** Quotient and remainder are unique. */
  lemma DivMod(x: int, m: int, k: int, s: int)
    requires m > 0 && 0 <= s < m && x == k * m + s
    ensures x / m == k && x % m == s
  {
    var q, t := x / m, x % m;
    assert x == q * m + t;
    Distrib(q, k, m);
    if q > k {
      MulMono(1, q - k, m);
    } else if q < k {
      Distrib(k, q, m);
      MulMono(1, k - q, m);
    }
  }

  /** Rounding a quotient by 2h: shifting by one more bit than h and adding
      back the last bit shifted out lands within h of v, ties going up. */
  lemma HalfStep(v: int, h: int)
    requires h > 0
    ensures var r := v / (2 * h) + (v / h) % 2;
      r * (2 * h) - h <= v < r * (2 * h) + h
  {
    var m := 2 * h;
    var q, s := v / m, v % m;
    assert v == q * m + s;
    assert q * m == (2 * q) * h;
    if s < h {
      DivMod(v, h, 2 * q, s);
      DivMod(2 * q, 2, q, 0);
    } else {
      assert (2 * q + 1) * h == (2 * q) * h + h;
      DivMod(v, h, 2 * q + 1, s - h);
      DivMod(2 * q + 1, 2, q, 1);
      assert (q + 1) * m == q * m + m;
    }
  }

  /** rnu rounding is round-to-nearest with ties toward plus infinity:
      r * 2^d is within half a unit of v, the upper end included. */
  lemma RoundoffRnuIsNearest(v: int, d: nat)
    requires d >= 1
    ensures var r := RoundoffRnu(v, d);
      r * Pow2(d) - Pow2(d - 1) <= v < r * Pow2(d) + Pow2(d - 1)
  {
    var h := Pow2(d - 1);
    assert Pow2(d) == 2 * h;
    assert RoundoffRnu(v, d) == v / (2 * h) + (v / h) % 2;
    HalfStep(v, h);
  }

  /** rnu rounding equals "add 2^(d-1), then shift right arithmetically by d",
      the form the scalar kernel writes out. */
  lemma RoundoffRnuIsBiasedShift(v: int, d: nat)
    requires d >= 1
    ensures RoundoffRnu(v, d) == Asr(v + Pow2(d - 1), d)
  {
    var r := RoundoffRnu(v, d);
    var h := Pow2(d - 1);
    assert Pow2(d) == 2 * h;
    RoundoffRnuIsNearest(v, d);
    DivMod(v + h, 2 * h, r, v + h - r * (2 * h));
  }

  /** Bounds of the product of two int16 values: only (-32768) * (-32768)
      reaches 2^30, every other product stays at least 2^15 below it. */
  lemma ProductRange(x: Int16, y: Int16)
    ensures -0x4000_0000 + 0x8000 <= x * y <= 0x4000_0000
    ensures x * y == 0x4000_0000 <==> x == MinInt16 && y == MinInt16
    ensures x * y != 0x4000_0000 ==> x * y <= 0x4000_0000 - 0x8000
  {
    if x == MinInt16 {
      assert x * y == -0x8000 * y;
    } else if y == MinInt16 {
      assert x * y == -0x8000 * x;
    } else if x >= 0 && y >= 0 {
      MulMono(x, 0x7fff, y);
      MulMono(y, 0x7fff, 0x7fff);
    } else if x < 0 && y < 0 {
      MulMono(-x, 0x7fff, -y);
      MulMono(-y, 0x7fff, 0x7fff);
      assert x * y == (-x) * (-y);
    } else if x < 0 {
      MulMono(-x, 0x7fff, y);
      MulMono(y, 0x7fff, 0x7fff);
      assert x * y == -((-x) * y);
    } else {
      MulMono(x, 0x7fff, -y);
      MulMono(-y, 0x7fff, 0x7fff);
      assert x * y == -(x * (-y));
    }
  }
}
