/**
  The numeric outcome of one benchmark round: the reference fills y_ref,
  then each of the six kernels runs on a zeroed y_test and is audited
  against y_ref. Allocation, random test data, timing and printing are not
  part of this model.
 */
module Suite {
  import opened FixedPoint
  import opened Rvv
  import Reference
  import Widening
  import Vsmul
  import opened Audit

  /** The alpha the benchmark uses, 0.5 in Q15. */
  const BenchAlpha: Int16 := 0x4000

  /** The vsmul kernel audited against the reference: the largest difference
      is at most 1, the mismatches are exactly the corner indices, and the
      verdict is EXACT exactly when no index is a corner. With alpha other
      than -32768 no index is a corner and the audit reports 0, 0, EXACT. */
  lemma AuditVsmulAgainstReference(a: seq<Int16>, b: seq<Int16>, y: seq<Int16>, n: int, alpha: Int16)
    requires n <= |a| && n <= |b| && n <= |y|
    ensures var r := RunAudit(Reference.Axpy(a, b, y, n, alpha), Vsmul.VsmulAxpy(a, b, y, n, alpha), n);
      && r.maxDiff <= 1
      && r.diffCount == |set k: nat | k < n && Vsmul.Corner(a[k], b[k], alpha)|
      && (r.verdict == Exact <==> forall k :: 0 <= k < n ==> !Vsmul.Corner(a[k], b[k], alpha))
      && (alpha != MinInt16 ==> r == AuditResult(0, 0, Exact))
  {
    var ref, test := Reference.Axpy(a, b, y, n, alpha), Vsmul.VsmulAxpy(a, b, y, n, alpha);
    Vsmul.VsmulAxpyVsReference(a, b, y, n, alpha);
    var m := if n > 0 then n else 0;
    assert Mismatches(ref, test, m) == set k: nat | k < n && Vsmul.Corner(a[k], b[k], alpha);
    var r := RunAudit(ref, test, n);
    if r.maxDiff != 0 {
      var j :| 0 <= j < n && r.maxDiff == AbsDiff(ref[j], test[j]);
    }
    if alpha != MinInt16 {
      AuditSelf(ref, n);
    }
  }

  /** One round over n elements: audits of the scalar reference, widening m1
      and m4 (all EXACT with 0 and 0: the widening kernels produce the same
      buffer as the reference whatever LMUL and VLEN) and vsmul m1, m4 and
      m8 (maximum difference at most 1; EXACT unless some index is a
      corner, so always EXACT with the benchmark's alpha). */
  method AuditRound(a: seq<Int16>, b: seq<Int16>, n: nat, alpha: Int16, vlen: nat,
                    setvlM1: nat -> nat, setvlM4: nat -> nat, setvlM8: nat -> nat)
    returns (reports: seq<AuditResult>)
    requires |a| == n && |b| == n
    requires vlen >= 128
    requires ConformingVsetvl(setvlM1, Vlmax(vlen, 16, 1))
    requires ConformingVsetvl(setvlM4, Vlmax(vlen, 16, 4))
    requires ConformingVsetvl(setvlM8, Vlmax(vlen, 16, 8))
    ensures |reports| == 6
    ensures forall k :: 0 <= k < 3 ==> reports[k] == AuditResult(0, 0, Exact)
    ensures forall k :: 3 <= k < 6 ==> reports[k].maxDiff <= 1
    ensures forall k :: 3 <= k < 6 ==>
      (reports[k].verdict == Exact <==> forall j :: 0 <= j < n ==> !Vsmul.Corner(a[j], b[j], alpha))
    ensures alpha == BenchAlpha ==> forall k :: 0 <= k < 6 ==> reports[k] == AuditResult(0, 0, Exact)
  {
    var zero: seq<Int16> := seq(n, _ => 0);
    var yRef := Reference.AxpyRef(a, b, zero, n, alpha);
    AuditSelf(yRef, n);
    ghost var exact := AuditResult(0, 0, Exact);

    var yTest := Reference.AxpyRef(a, b, zero, n, alpha);
    var rRef := RunAudit(yRef, yTest, n);
    assert rRef == exact;

    yTest := Widening.WideningM1(a, b, zero, n, alpha, vlen, setvlM1);
    var rWideM1 := RunAudit(yRef, yTest, n);
    assert rWideM1 == exact;
    yTest := Widening.WideningM4(a, b, zero, n, alpha, vlen, setvlM4);
    var rWideM4 := RunAudit(yRef, yTest, n);
    assert rWideM4 == exact;

    ghost var vsmulReport := RunAudit(yRef, Vsmul.VsmulAxpy(a, b, zero, n, alpha), n);
    AuditVsmulAgainstReference(a, b, zero, n, alpha);
    yTest := Vsmul.VsmulM1(a, b, zero, n, alpha, vlen, setvlM1);
    var rVsmulM1 := RunAudit(yRef, yTest, n);
    assert rVsmulM1 == vsmulReport;
    yTest := Vsmul.VsmulM4(a, b, zero, n, alpha, vlen, setvlM4);
    var rVsmulM4 := RunAudit(yRef, yTest, n);
    assert rVsmulM4 == vsmulReport;
    yTest := Vsmul.VsmulM8(a, b, zero, n, alpha, vlen, setvlM8);
    var rVsmulM8 := RunAudit(yRef, yTest, n);
    assert rVsmulM8 == vsmulReport;

    reports := [rRef, rWideM1, rWideM4, rVsmulM1, rVsmulM4, rVsmulM8];
  }
}
