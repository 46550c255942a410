/**
  The saturating-multiply strip-mined kernel q15_axpy_rvv_vsmul_m1 / _m4 /
  _m8: per strip, p = vsmul(b, alpha) rounds and saturates the product to
  Q15 on its own, then y = vsadd(a, p). It equals the reference except in
  one corner, where it is exactly one lower.
 */
module Vsmul {
  import opened FixedPoint
  import opened Rvv
  import Reference

  /** One lane of the strip computation. */
  function VsmulLane(a: Int16, b: Int16, alpha: Int16): Int16
  {
    Vsadd(a, Vsmul(b, alpha))
  }

  /** The one place where saturating the product early changes the result:
      alpha = b = -32768 makes the rounded product 32768, which vsmul clips
      to 32767, and a negative a keeps the sum below the upper clamp. */
  predicate Corner(a: Int16, b: Int16, alpha: Int16)
  {
    alpha == MinInt16 && b == MinInt16 && a < 0
  }

  /** The rounded product alpha * b lies in [-32767, 32768] and reaches 32768
      only for alpha = b = -32768. */
  lemma RoundedProductRange(b: Int16, alpha: Int16)
    ensures -0x7fff <= RoundoffRnu(b * alpha, 15) <= 0x8000
    ensures RoundoffRnu(b * alpha, 15) == 0x8000 <==> alpha == MinInt16 && b == MinInt16
  {
    Pow2Q15();
    ProductRange(b, alpha);
    RoundoffRnuIsNearest(b * alpha, 15);
  }

  /** The vsmul lane against the reference: equal outside the corner, one
      lower inside it. */
  lemma VsmulLaneVsReference(a: Int16, b: Int16, alpha: Int16)
    ensures Corner(a, b, alpha) ==> VsmulLane(a, b, alpha) == Reference.RefElem(a, b, alpha) as int - 1
    ensures !Corner(a, b, alpha) ==> VsmulLane(a, b, alpha) == Reference.RefElem(a, b, alpha)
  {
    Reference.RefDecomposition(a, b, alpha);
    RoundedProductRange(b, alpha);
    assert alpha * b == b * alpha;
  }

  /** The whole output buffer the vsmul kernel leaves behind. */
  function VsmulAxpy(a: seq<Int16>, b: seq<Int16>, y: seq<Int16>, n: int, alpha: Int16): seq<Int16>
    requires n <= |a| && n <= |b| && n <= |y|
  {
    seq(|y|, k requires 0 <= k < |y| => if k < n then VsmulLane(a[k], b[k], alpha) else y[k])
  }

  /** Buffer-level comparison: the vsmul kernel's output differs from the
      reference's by at most 1 at every index, is equal exactly where the
      corner does not hold, and agrees everywhere once alpha != -32768. */
  lemma {:induction false} VsmulAxpyVsReference(a: seq<Int16>, b: seq<Int16>, y: seq<Int16>, n: int, alpha: Int16)
    requires n <= |a| && n <= |b| && n <= |y|
    ensures var r, v := Reference.Axpy(a, b, y, n, alpha), VsmulAxpy(a, b, y, n, alpha);
      |r| == |v| == |y|
      && (forall k :: 0 <= k < |y| ==> r[k] as int - 1 <= v[k] <= r[k])
      && (forall k :: 0 <= k < n ==> (v[k] == r[k] <==> !Corner(a[k], b[k], alpha)))
    ensures alpha != MinInt16 ==> VsmulAxpy(a, b, y, n, alpha) == Reference.Axpy(a, b, y, n, alpha)
  {
    forall k | 0 <= k < n {
      VsmulLaneVsReference(a[k], b[k], alpha);
    }
  }

  /** The strip-mined loop, same shape as the widening kernel's. Its output
      is within one of the reference's everywhere, whatever the strip
      lengths. */
  method VsmulKernel(a: seq<Int16>, b: seq<Int16>, yIn: seq<Int16>, n: nat, alpha: Int16,
                     setvl: nat -> nat)
    returns (y: seq<Int16>)
    requires n <= |a| && n <= |b| && n <= |yIn|
    requires StripChooser(setvl, n)
    ensures y == VsmulAxpy(a, b, yIn, n, alpha)
    ensures var r := Reference.Axpy(a, b, yIn, n, alpha);
      |y| == |r| && forall k :: 0 <= k < |y| ==> r[k] as int - 1 <= y[k] <= r[k]
  {
    ghost var want := VsmulAxpy(a, b, yIn, n, alpha);
    y := yIn;
    var i: nat := 0;
    while i < n
      invariant i <= n
      invariant |y| == |want|
      invariant forall k :: 0 <= k < i ==> y[k] == want[k]
      invariant forall k :: i <= k < |y| ==> y[k] == yIn[k]
      decreases n - i
    {
      var vl := setvl(n - i);
      var va := Vle16(a, i, vl);
      var vb := Vle16(b, i, vl);
      var vProd := VsmulVx(vb, alpha);
      var vRes := VsaddVv(va, vProd);
      StoreExtendsPrefix(y, want, i, vRes);
      y := Vse16(y, i, vRes);
      i := i + vl;
    }
    assert forall k :: 0 <= k < |y| ==> y[k] == want[k];
    VsmulAxpyVsReference(a, b, yIn, n, alpha);
  }

  /** q15_axpy_rvv_vsmul_m1: LMUL = 1, VLMAX = VLEN / 16. */
  method VsmulM1(a: seq<Int16>, b: seq<Int16>, yIn: seq<Int16>, n: nat, alpha: Int16,
                 vlen: nat, setvl: nat -> nat)
    returns (y: seq<Int16>)
    requires n <= |a| && n <= |b| && n <= |yIn|
    requires vlen >= 128 && ConformingVsetvl(setvl, Vlmax(vlen, 16, 1))
    ensures y == VsmulAxpy(a, b, yIn, n, alpha)
  {
    ConformingIsStripChooser(setvl, Vlmax(vlen, 16, 1), n);
    y := VsmulKernel(a, b, yIn, n, alpha, setvl);
  }

  /** q15_axpy_rvv_vsmul_m4: LMUL = 4, VLMAX = 4 * VLEN / 16. */
  method VsmulM4(a: seq<Int16>, b: seq<Int16>, yIn: seq<Int16>, n: nat, alpha: Int16,
                 vlen: nat, setvl: nat -> nat)
    returns (y: seq<Int16>)
    requires n <= |a| && n <= |b| && n <= |yIn|
    requires vlen >= 128 && ConformingVsetvl(setvl, Vlmax(vlen, 16, 4))
    ensures y == VsmulAxpy(a, b, yIn, n, alpha)
  {
    ConformingIsStripChooser(setvl, Vlmax(vlen, 16, 4), n);
    y := VsmulKernel(a, b, yIn, n, alpha, setvl);
  }

  /** q15_axpy_rvv_vsmul_m8: LMUL = 8, VLMAX = 8 * VLEN / 16. */
  method VsmulM8(a: seq<Int16>, b: seq<Int16>, yIn: seq<Int16>, n: nat, alpha: Int16,
                 vlen: nat, setvl: nat -> nat)
    returns (y: seq<Int16>)
    requires n <= |a| && n <= |b| && n <= |yIn|
    requires vlen >= 128 && ConformingVsetvl(setvl, Vlmax(vlen, 16, 8))
    ensures y == VsmulAxpy(a, b, yIn, n, alpha)
  {
    ConformingIsStripChooser(setvl, Vlmax(vlen, 16, 8), n);
    y := VsmulKernel(a, b, yIn, n, alpha, setvl);
  }
}
