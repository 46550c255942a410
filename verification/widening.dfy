/**
  The widening strip-mined kernel q15_axpy_rvv_widening_m1 / _m4: per strip,
  widen alpha * b and a << 15 to 32 bits, add, then narrow with vnclip
  (round under rnu, saturate). It is bit-exact with the reference for every
  choice of strip lengths.
 */
module Widening {
  import opened FixedPoint
  import opened Rvv
  import Reference

  /** One lane of the strip computation, intrinsic by intrinsic. */
  function WideningLane(a: Int16, b: Int16, alpha: Int16): Int16
  {
    Vnclip(Vadd(Vwmul(b, alpha), Vsll(Vsext(a), 15)), 15)
  }

  /** Neither the 32-bit vsll nor the 32-bit vadd wraps, and the lane result
      equals the scalar reference. */
  lemma WideningLaneIsReference(a: Int16, b: Int16, alpha: Int16)
    ensures Vsll(Vsext(a), 15) == a * 0x8000
    ensures Vadd(Vwmul(b, alpha), Vsll(Vsext(a), 15)) == alpha * b + a * 0x8000
    ensures WideningLane(a, b, alpha) == Reference.RefElem(a, b, alpha)
  {
    Pow2Q15();
    ProductRange(b, alpha);
    var t := Reference.RefTrace(a, b, alpha);
    assert Vsll(Vsext(a), 15) == a * 0x8000;
    assert Vadd(Vwmul(b, alpha), Vsll(Vsext(a), 15)) == t.acc;
    RoundoffRnuIsBiasedShift(t.acc, 15);
  }

  /** A whole strip, intrinsic by intrinsic, is the reference lane by lane. */
  lemma WideningStripIsReference(va: seq<Int16>, vb: seq<Int16>, alpha: Int16)
    requires |va| == |vb|
    ensures var vy := VnclipWx(VaddVv(VwmulVx(vb, alpha), VsllVx(VsextVf2(va), 15)), 15);
      && |vy| == |va|
      && forall k :: 0 <= k < |va| ==> vy[k] == Reference.RefElem(va[k], vb[k], alpha)
  {
    forall k | 0 <= k < |va| {
      WideningLaneIsReference(va[k], vb[k], alpha);
    }
  }

  /** The strip-mined loop. setvl stands for vsetvl_e16m<LMUL>: any strip
      length in [1, n - i] is allowed, and the output is the reference's
      whatever the choice, so it does not depend on LMUL or VLEN. Only
      y[0..n) is written. */
  method WideningKernel(a: seq<Int16>, b: seq<Int16>, yIn: seq<Int16>, n: nat, alpha: Int16,
                        setvl: nat -> nat)
    returns (y: seq<Int16>)
    requires n <= |a| && n <= |b| && n <= |yIn|
    requires StripChooser(setvl, n)
    ensures y == Reference.Axpy(a, b, yIn, n, alpha)
  {
    ghost var want := Reference.Axpy(a, b, yIn, n, alpha);
    y := yIn;
    var i: nat := 0;
    while i < n
      invariant i <= n
      invariant |y| == |want|
      invariant forall k :: 0 <= k < i ==> y[k] == want[k]
      invariant forall k :: i <= k < |y| ==> y[k] == yIn[k]
      decreases n - i
    {
      var vl := setvl(n - i);
      var va := Vle16(a, i, vl);
      var vb := Vle16(b, i, vl);
      var prod := VwmulVx(vb, alpha);
      var vaWide := VsextVf2(va);
      var vaShifted := VsllVx(vaWide, 15);
      var acc := VaddVv(prod, vaShifted);
      var vy := VnclipWx(acc, 15);
      WideningStripIsReference(va, vb, alpha);
      StoreExtendsPrefix(y, want, i, vy);
      y := Vse16(y, i, vy);
      i := i + vl;
    }
    assert forall k :: 0 <= k < |y| ==> y[k] == want[k];
  }

  /** q15_axpy_rvv_widening_m1: LMUL = 1, VLMAX = VLEN / 16. */
  method WideningM1(a: seq<Int16>, b: seq<Int16>, yIn: seq<Int16>, n: nat, alpha: Int16,
                    vlen: nat, setvl: nat -> nat)
    returns (y: seq<Int16>)
    requires n <= |a| && n <= |b| && n <= |yIn|
    requires vlen >= 128 && ConformingVsetvl(setvl, Vlmax(vlen, 16, 1))
    ensures y == Reference.Axpy(a, b, yIn, n, alpha)
  {
    ConformingIsStripChooser(setvl, Vlmax(vlen, 16, 1), n);
    y := WideningKernel(a, b, yIn, n, alpha, setvl);
  }

  /** q15_axpy_rvv_widening_m4: LMUL = 4, VLMAX = 4 * VLEN / 16. */
  method WideningM4(a: seq<Int16>, b: seq<Int16>, yIn: seq<Int16>, n: nat, alpha: Int16,
                    vlen: nat, setvl: nat -> nat)
    returns (y: seq<Int16>)
    requires n <= |a| && n <= |b| && n <= |yIn|
    requires vlen >= 128 && ConformingVsetvl(setvl, Vlmax(vlen, 16, 4))
    ensures y == Reference.Axpy(a, b, yIn, n, alpha)
  {
    ConformingIsStripChooser(setvl, Vlmax(vlen, 16, 4), n);
    y := WideningKernel(a, b, yIn, n, alpha, setvl);
  }
}
