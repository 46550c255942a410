/**
  Semantics of the RISC-V "V" extension 1.0 intrinsics the kernels use,
  one lane at a time and then over a strip of vl lanes. The fixed-point
  rounding mode vxrm is the constant rnu (0) that both kernels write before
  their loop; the saturation flag vxsat is not modelled.
 */
module Rvv {
  import opened FixedPoint

  // ---- Lane semantics ----------------------------------------------------

  /** vwmul.vx with SEW = 16: signed widening multiply, exact in 32 bits. */
  function Vwmul(x: Int16, y: Int16): Int32
  {
    ProductRange(x, y);
    x * y
  }

  /** vsext.vf2 from 16 to 32 bits: sign extension keeps the value. */
  function Vsext(x: Int16): Int32
  {
    x
  }

  /** vsll.vx with SEW = 32: the shift amount is the low 5 bits of the scalar
      operand and the result keeps the low 32 bits. */
  function Vsll(x: Int32, s: nat): Int32
  {
    Wrap32(x * Pow2(s % 32))
  }

  /** vadd.vv with SEW = 32: wrap-around addition. */
  function Vadd(x: Int32, y: Int32): Int32
  {
    Wrap32(x + y)
  }

  /** vnclip.wx to SEW = 16 (section 12.5 of the RISC-V "V" extension 1.0):
      the shift amount is the low 5 bits of the scalar operand; round off
      under rnu, then saturate to 16 bits. */
  function Vnclip(x: Int32, s: nat): Int16
  {
    Clip16(RoundoffRnu(x, s % 32))
  }

  /** vsmul.vx with SEW = 16 (section 12.3 of the RISC-V "V" extension 1.0):
      the product shifted right by SEW - 1 = 15 with rnu rounding, saturated
      to 16 bits. */
  function Vsmul(x: Int16, y: Int16): Int16
  {
    Clip16(RoundoffRnu(x * y, 15))
  }

  /** vsadd.vv with SEW = 16 (section 12.1 of the RISC-V "V" extension 1.0):
      saturating addition. */
  function Vsadd(x: Int16, y: Int16): Int16
  {
    Clip16(x + y)
  }

  // ---- Strip semantics: each lane of a vl-element register group ---------

  /** vle16.v: load vl elements of a buffer starting at element i. */
  function Vle16(buf: seq<Int16>, i: nat, vl: nat): seq<Int16>
    requires i + vl <= |buf|
  {
    buf[i..i + vl]
  }

  /** vse16.v: store the strip v into a buffer starting at element i. */
  function Vse16(buf: seq<Int16>, i: nat, v: seq<Int16>): (r: seq<Int16>)
    requires i + |v| <= |buf|
    ensures |r| == |buf|
    ensures forall k :: 0 <= k < |v| ==> r[i + k] == v[k]
    ensures forall k :: 0 <= k < |buf| && !(i <= k < i + |v|) ==> r[k] == buf[k]
  {
    buf[..i] + v + buf[i + |v|..]
  }

  /** Storing a strip whose lanes are the wanted values for i .. i + |v|
      extends a prefix of wanted values from i to i + |v| and keeps every
      element from i + |v| on. This is the step of every strip-mined loop. */
  lemma StoreExtendsPrefix(y: seq<Int16>, want: seq<Int16>, i: nat, v: seq<Int16>)
    requires i + |v| <= |y| && |y| == |want|
    requires forall k :: 0 <= k < i ==> y[k] == want[k]
    requires forall k :: 0 <= k < |v| ==> v[k] == want[i + k]
    ensures var r := Vse16(y, i, v);
      && |r| == |y|
      && (forall k :: 0 <= k < i + |v| ==> r[k] == want[k])
      && (forall k :: i + |v| <= k < |y| ==> r[k] == y[k])
  {
    var r := Vse16(y, i, v);
    forall k | i <= k < i + |v|
      ensures r[k] == want[k]
    {
      assert r[i + (k - i)] == v[k - i];
    }
  }

  function VwmulVx(v: seq<Int16>, x: Int16): seq<Int32>
  {
    seq(|v|, k requires 0 <= k < |v| => Vwmul(v[k], x))
  }

  function VsextVf2(v: seq<Int16>): seq<Int32>
  {
    seq(|v|, k requires 0 <= k < |v| => Vsext(v[k]))
  }

  function VsllVx(v: seq<Int32>, s: nat): seq<Int32>
  {
    seq(|v|, k requires 0 <= k < |v| => Vsll(v[k], s))
  }

  function VaddVv(v: seq<Int32>, w: seq<Int32>): seq<Int32>
    requires |v| == |w|
  {
    seq(|v|, k requires 0 <= k < |v| => Vadd(v[k], w[k]))
  }

  function VnclipWx(v: seq<Int32>, s: nat): seq<Int16>
  {
    seq(|v|, k requires 0 <= k < |v| => Vnclip(v[k], s))
  }

  function VsmulVx(v: seq<Int16>, x: Int16): seq<Int16>
  {
    seq(|v|, k requires 0 <= k < |v| => Vsmul(v[k], x))
  }

  function VsaddVv(v: seq<Int16>, w: seq<Int16>): seq<Int16>
    requires |v| == |w|
  {
    seq(|v|, k requires 0 <= k < |v| => Vsadd(v[k], w[k]))
  }

  // ---- vsetvl ------------------------------------------------------------

  /** VLMAX = LMUL * VLEN / SEW. */
  function Vlmax(vlen: nat, sew: nat, lmul: nat): nat
    requires sew > 0
  {
    lmul * vlen / sew
  }

  /** The constraints of section 6.3 of the RISC-V "V" extension 1.0 on the
      vl that vsetvl may return for an application vector length avl. */
  predicate VlConforms(avl: nat, vlmax: nat, vl: nat)
  {
    && (avl <= vlmax ==> vl == avl)
    && (avl < 2 * vlmax ==> (avl + 1) / 2 <= vl <= vlmax)
    && (avl >= 2 * vlmax ==> vl == vlmax)
  }

  /** A vsetvl implementation: deterministic in avl (rule 4 of section 6.3
      of the RISC-V "V" extension 1.0) and within the constraints above for
      every avl. */
  ghost predicate ConformingVsetvl(setvl: nat -> nat, vlmax: nat)
  {
    forall avl: nat :: VlConforms(avl, vlmax, setvl(avl))
  }

  /** What a strip-mined loop over n remaining elements relies on: every
      strip is non-empty and no longer than what remains. */
  predicate StripChooser(setvl: nat -> nat, n: nat)
  {
    forall avl: nat :: 0 < avl <= n ==> 1 <= setvl(avl) <= avl
  }

  /** A conforming vl lies in [1, avl] for a non-zero avl. */
  lemma VlInRange(avl: nat, vlmax: nat, vl: nat)
    requires 1 <= vlmax && 1 <= avl && VlConforms(avl, vlmax, vl)
    ensures 1 <= vl <= avl && vl <= vlmax
  {
  }

  /** Every conforming vsetvl is a valid strip chooser for any n. */
  lemma ConformingIsStripChooser(setvl: nat -> nat, vlmax: nat, n: nat)
    requires 1 <= vlmax && ConformingVsetvl(setvl, vlmax)
    ensures StripChooser(setvl, n)
  {
    forall avl: nat | 0 < avl <= n
      ensures 1 <= setvl(avl) <= avl
    {
      VlInRange(avl, vlmax, setvl(avl));
    }
  }

  /** The usual hardware choice, vl = min(avl, VLMAX), conforms. */
  function MinVsetvl(vlmax: nat, avl: nat): (vl: nat)
    ensures VlConforms(avl, vlmax, vl)
  {
    if avl <= vlmax then avl else vlmax
  }
}
