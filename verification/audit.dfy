/**
  The integer part of run_audit: one pass over the first n elements of a
  reference buffer and a kernel's output buffer, keeping the largest
  absolute difference and the number of differing elements, and the
  EXACT/APPROX verdict drawn from that count.
 */
module Audit {
  import opened FixedPoint

  datatype Label = Exact | Approx

  /** The two running values of the audit loop, max_diff and diff_count. */
  datatype Tally = Tally(maxDiff: int, diffCount: int)

  datatype AuditResult = AuditResult(maxDiff: int, diffCount: int, verdict: Label)

  /** abs((int32_t)ref[i] - (int32_t)test[i]): at most 65535, so the int32
      subtraction and abs never overflow. */
  function AbsDiff(x: Int16, y: Int16): (d: nat)
    ensures d <= 0xffff
    ensures d == 0 <==> x == y
    ensures d == x - y || d == y - x
  {
    if x >= y then x - y else y - x
  }

  /** One iteration of the audit loop. */
  function Step(t: Tally, d: nat): Tally
  {
    Tally(if d > t.maxDiff then d else t.maxDiff,
          if d > 0 then t.diffCount + 1 else t.diffCount)
  }

  /** The indices below k at which the two buffers differ. */
  ghost function Mismatches(ref: seq<Int16>, test: seq<Int16>, k: nat): set<nat>
    requires k <= |ref| && k <= |test|
  {
    set j: nat | j < k && ref[j] != test[j]
  }

  /** Going from k - 1 to k adds index k - 1 to the mismatches exactly when
      the buffers differ there, and it was not among them before. */
  lemma MismatchesStep(ref: seq<Int16>, test: seq<Int16>, k: nat)
    requires 1 <= k <= |ref| && k <= |test|
    ensures k - 1 !in Mismatches(ref, test, k - 1)
    ensures Mismatches(ref, test, k) ==
      Mismatches(ref, test, k - 1) + (if ref[k - 1] != test[k - 1] then {k - 1} else {})
    ensures |Mismatches(ref, test, k)| ==
      |Mismatches(ref, test, k - 1)| + (if ref[k - 1] != test[k - 1] then 1 else 0)
  {
    assert Mismatches(ref, test, k) ==
      Mismatches(ref, test, k - 1) + (if ref[k - 1] != test[k - 1] then {k - 1} else {});
  }

  /** The loop state after the first k iterations. maxDiff is the largest
      difference seen (0 when none), diffCount the number of mismatching
      indices. */
  function TallyPrefix(ref: seq<Int16>, test: seq<Int16>, k: nat): (t: Tally)
    requires k <= |ref| && k <= |test|
    ensures 0 <= t.diffCount <= k
    ensures t.diffCount == |Mismatches(ref, test, k)|
    ensures 0 <= t.maxDiff <= 0xffff
    ensures forall j :: 0 <= j < k ==> AbsDiff(ref[j], test[j]) <= t.maxDiff
    ensures t.maxDiff == 0 || exists j :: 0 <= j < k && t.maxDiff == AbsDiff(ref[j], test[j])
    ensures t.diffCount == 0 <==> forall j :: 0 <= j < k ==> ref[j] == test[j]
    decreases k
  {
    if k == 0 then
      assert Mismatches(ref, test, 0) == {};
      Tally(0, 0)
    else
      var prev := TallyPrefix(ref, test, k - 1);
      MismatchesStep(ref, test, k);
      Step(prev, AbsDiff(ref[k - 1], test[k - 1]))
  }

  /** run_audit without the printing: a non-positive n audits nothing. The
      verdict is EXACT exactly when the buffers agree on [0, n), and then
      both numbers are 0. */
  function RunAudit(ref: seq<Int16>, test: seq<Int16>, n: int): (r: AuditResult)
    requires n <= |ref| && n <= |test|
    ensures r.verdict == Exact <==> forall j :: 0 <= j < n ==> ref[j] == test[j]
    ensures r.verdict == Exact <==> r.diffCount == 0
    ensures r.maxDiff == 0 <==> r.diffCount == 0
    ensures 0 <= r.diffCount <= (if n > 0 then n else 0)
    ensures r.diffCount == |Mismatches(ref, test, if n > 0 then n else 0)|
    ensures forall j :: 0 <= j < n ==> AbsDiff(ref[j], test[j]) <= r.maxDiff
    ensures r.maxDiff == 0 || exists j :: 0 <= j < n && r.maxDiff == AbsDiff(ref[j], test[j])
  {
    var t := TallyPrefix(ref, test, if n > 0 then n else 0);
    AuditResult(t.maxDiff, t.diffCount, if t.diffCount == 0 then Exact else Approx)
  }

  /** Auditing a buffer against itself reports 0, 0, EXACT. */
  lemma AuditSelf(ref: seq<Int16>, n: int)
    requires n <= |ref|
    ensures RunAudit(ref, ref, n) == AuditResult(0, 0, Exact)
  {
  }
}
