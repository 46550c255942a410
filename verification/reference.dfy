/**
  The scalar reference kernel q15_axpy_ref: for every index below n,
  y[i] = sat16((alpha * b[i] + (a[i] << 15) + 2^14) >> 15), computed with a
  32-bit accumulator. This kernel defines the correct output of every
  other kernel.
 */
module Reference {
  import opened FixedPoint

  /** The intermediate values of one element of the reference kernel, named
      after the C locals; `rounded` is the value before the clamp. */
  datatype Trace = Trace(prod: int, shifted: int, acc: int, biased: int, rounded: int, y: Int16)

  /** One element of the reference kernel, step by step. Every intermediate
      fits a C int32_t, so none of the 32-bit operations overflows; the
      biased accumulator keeps 3 * 2^14 of headroom below and 2^14 above. */
  function RefTrace(a: Int16, b: Int16, alpha: Int16): (t: Trace)
    ensures InInt32(t.prod) && InInt32(t.shifted) && InInt32(t.acc) && InInt32(t.rounded)
    ensures MinInt32 + 3 * 0x4000 <= t.biased <= MaxInt32 - 0x3fff
  {
    ProductRange(alpha, b);
    var prod := alpha * b;
    var shifted := a * 0x8000;
    var acc := prod + shifted;
    var biased := acc + 0x4000;
    var rounded := biased / 0x8000;
    Trace(prod, shifted, acc, biased, rounded, Clip16(rounded))
  }

  /** The output sample of the reference kernel for one index. */
  function RefElem(a: Int16, b: Int16, alpha: Int16): Int16
  {
    RefTrace(a, b, alpha).y
  }

  /** The reference equals a[i] plus the product alpha * b[i] rounded on its
      own to Q15 with rnu, then saturated: a[i] << 15 is a whole number of
      output units, so it passes through the rounding unchanged. */
  lemma RefDecomposition(a: Int16, b: Int16, alpha: Int16)
    ensures RefElem(a, b, alpha) == Clip16(a + RoundoffRnu(alpha * b, 15))
  {
    Pow2Q15();
    var p := alpha * b;
    RoundoffRnuIsBiasedShift(p, 15);
    var q := (p + 0x4000) / 0x8000;
    DivMod(p + a * 0x8000 + 0x4000, 0x8000, a + q, (p + 0x4000) % 0x8000);
  }

  /** Rounding before the clamp is to the nearest Q15 value, ties toward plus
      infinity: the unclamped result r satisfies
      r * 2^15 - 2^14 <= alpha * b + a * 2^15 < r * 2^15 + 2^14. */
  lemma RefRoundsToNearest(a: Int16, b: Int16, alpha: Int16)
    ensures var r := RefTrace(a, b, alpha).rounded;
      r * 0x8000 - 0x4000 <= alpha * b + a * 0x8000 < r * 0x8000 + 0x4000
    ensures RefElem(a, b, alpha) == Clip16(RefTrace(a, b, alpha).rounded)
  {
    Pow2Q15();
    var v := alpha * b + a * 0x8000;
    RoundoffRnuIsBiasedShift(v, 15);
    RoundoffRnuIsNearest(v, 15);
  }

  /** Exact ties go up: half an LSB rounds to 1, minus half an LSB to 0. */
  lemma RefTiesRoundUp()
    ensures RefElem(0, 0x4000, 1) == 1
    ensures RefElem(0, 0x4000, -1) == 0
  {
    var t1 := RefTrace(0, 0x4000, 1);
    assert t1.biased == 0x8000;
    var t2 := RefTrace(0, 0x4000, -1);
    assert t2.biased == 0;
  }

  /** A large-magnitude tie rounds up: alpha = 16384, b = 32767 is a product
      of 16383.5 LSB and gives 16384. a = 32767 with b = 0 stays 32767
      without the clamp taking part. Saturation at both ends. */
  lemma RefExamples()
    ensures RefTrace(0, 0x7fff, 0x4000).prod % 0x8000 == 0x4000
    ensures RefTrace(0, 0x7fff, 0x4000).biased == 536_870_912
    ensures RefElem(0, 0x7fff, 0x4000) == 0x4000
    ensures RefTrace(0x7fff, 0, 0x4000).biased == 1_073_725_440
    ensures RefTrace(0x7fff, 0, 0x4000).rounded == 0x7fff
    ensures RefTrace(0x7fff, 0x7fff, 0x7fff).rounded > MaxInt16
    ensures RefElem(0x7fff, 0x7fff, 0x7fff) == MaxInt16
    ensures RefTrace(MinInt16, 0x7fff, MinInt16).rounded < MinInt16
    ensures RefElem(MinInt16, 0x7fff, MinInt16) == MinInt16
  {
    var t1 := RefTrace(0, 0x7fff, 0x4000);
    assert t1.prod == 536_854_528;
    var t2 := RefTrace(0x7fff, 0, 0x4000);
    assert t2.acc == 1_073_709_056;
    var t3 := RefTrace(0x7fff, 0x7fff, 0x7fff);
    assert t3.prod == 1_073_676_289;
    var t4 := RefTrace(MinInt16, 0x7fff, MinInt16);
    assert t4.shifted == -0x4000_0000;
  }

  /** The whole output buffer the reference kernel leaves behind: indices
      below n hold RefElem, the rest of y is as it was. */
  function Axpy(a: seq<Int16>, b: seq<Int16>, y: seq<Int16>, n: int, alpha: Int16): seq<Int16>
    requires n <= |a| && n <= |b| && n <= |y|
  {
    seq(|y|, k requires 0 <= k < |y| => if k < n then RefElem(a[k], b[k], alpha) else y[k])
  }

  /** q15_axpy_ref: one pass over i = 0 .. n - 1, writing y[i] only. A
      non-positive n writes nothing. */
  method AxpyRef(a: seq<Int16>, b: seq<Int16>, yIn: seq<Int16>, n: int, alpha: Int16)
    returns (y: seq<Int16>)
    requires n <= |a| && n <= |b| && n <= |yIn|
    ensures y == Axpy(a, b, yIn, n, alpha)
    ensures n <= 0 ==> y == yIn
    ensures |y| == |yIn| && forall k :: 0 <= k < n ==> y[k] == RefElem(a[k], b[k], alpha)
  {
    y := yIn;
    var i := 0;
    while i < n
      invariant 0 <= i <= (if n > 0 then n else 0)
      invariant |y| == |yIn|
      invariant forall k :: 0 <= k < i ==> y[k] == RefElem(a[k], b[k], alpha)
      invariant forall k :: i <= k < |y| ==> y[k] == yIn[k]
    {
      y := y[i := RefTrace(a[i], b[i], alpha).y];
      i := i + 1;
    }
    assert forall k :: 0 <= k < |y| ==> y[k] == Axpy(a, b, yIn, n, alpha)[k];
  }
}
