# Q15 AXPY on RISC-V "V": a verified model

This project models the numeric core of `q15_axpy_challenge.c`. That file
computes a Q15 fixed-point AXPY,

    y[i] = sat16((alpha * b[i] + (a[i] << 15) + 2^14) >> 15),

in three ways. It also audits how far each variant's output is from the
reference:

- **Scalar reference** `q15_axpy_ref`. It uses a 32-bit accumulator,
  adds the half-LSB bias, shifts arithmetically by 15 and clamps to
  int16.
- **Widening kernel** `q15_axpy_rvv_widening_m1/_m4`. It is a strip-mined
  loop over RVV 1.0 intrinsics: `vwmul` for the product, `vsext` + `vsll`
  for `a << 15`, `vadd`, then a single narrowing `vnclip` under
  `vxrm = 0` (rnu).
- **Saturating-multiply kernel** `q15_axpy_rvv_vsmul_m1/_m4/_m8`. It uses
  the same loop with `vsmul` (rounded, saturated Q15 product) followed by
  `vsadd`.
- **Audit** `run_audit`. It is a pass over two buffers that keeps the
  largest absolute difference and the mismatch count, and gives the
  EXACT/APPROX verdict.

Modules, one per file:

- `FixedPoint` (`fixed_point.dfy`) holds the int16/int32 ranges,
  saturation, 32-bit wrap, arithmetic shift, and the rnu `roundoff_signed`
  of section 3.8 of the RISC-V "V" extension 1.0.
- `Rvv` (`rvv.dfy`) holds the lane and strip semantics of each intrinsic
  and the vl constraints of section 6.3 of the RISC-V "V" extension 1.0.
- `Reference`, `Widening`, `Vsmul` and `Audit` model the components named
  above.
- `Suite` audits all six kernels against the reference in one benchmark
  round.

Modelling choices:

- Integers are unbounded. C's `<< 15` is multiplication by 32768. C's
  `>> 15` on a signed value is floor division by 32768, which is an
  arithmetic shift. The int32 range of every intermediate is proved
  rather than assumed.
- Buffers are sequences. Each kernel takes the contents of `y` on entry
  and returns its contents on exit, so "only `y[0..n)` is written" is part
  of every kernel's postcondition.
- `vsetvl_e16m<LMUL>` is a deterministic function parameter `setvl`. The
  strip loops accept any `setvl` that returns a strip length in
  `[1, avl]`. The m1/m4/m8 entry points accept any `setvl` that satisfies
  section 6.3 of the RISC-V "V" extension 1.0 for
  VLMAX = LMUL·VLEN/16 with VLEN ≥ 128. Strip-size independence is
  therefore a consequence of the postconditions: every choice of strips
  yields the same buffer. Buffers are separate sequences, so `y` never
  overlaps `a` or `b` (see "Left out").
- The rounding mode is the constant rnu, which both kernels write with
  `csrwi vxrm, 0`.

Results:

- The widening kernel is bit-exact with the reference.
- The vsmul kernel equals the reference except when
  `alpha = b[i] = -32768` and `a[i] < 0`. There it is exactly 1 lower.
  With the benchmark's `alpha = 16384`, all six audits report EXACT.
- The biased accumulator of the reference lies in
  `[-2^31 + 3·2^14, 2^31 - 2^14]`. The 32-bit headroom suffices, and none
  of the reference's int32 operations overflows.

For `a = 32767`, `b = 0`, `alpha = 16384` the clamp never engages. The
biased accumulator is 1,073,725,440, which shifts to exactly 32767
(`Reference.RefExamples`).

## Model

| member | source | states |
|---|---|---|
| FixedPoint.Wrap32 | src/q15_axpy_challenge.c:36-37 | what a 32-bit lane keeps of a value: congruent to it modulo 2^32, and the value itself when it fits int32 |
| FixedPoint.RoundoffRnuIsNearest | src/q15_axpy_challenge.c:29 | under vxrm = 0, roundoff_signed(v, d) is the integer r with r·2^d − 2^(d−1) ≤ v < r·2^d + 2^(d−1): round to nearest, ties toward +∞ |
| FixedPoint.RoundoffRnuIsBiasedShift | src/q15_axpy_challenge.c:17 | rnu rounding equals "add 2^(d−1), then shift right arithmetically by d", the scalar kernel's formulation |
| FixedPoint.ProductRange | src/q15_axpy_challenge.c:15 | an int16 × int16 product lies in [−2^30 + 2^15, 2^30]; it equals 2^30 iff both factors are −32768, and is otherwise at most 2^30 − 2^15 |
| Reference.RefTrace | src/q15_axpy_challenge.c:15-19 | prod, a << 15, acc and the rounded value all fit int32; acc + 2^14 lies in [−2^31 + 3·2^14, 2^31 − 2^14], so no 32-bit operation overflows |
| Reference.RefDecomposition | src/q15_axpy_challenge.c:16-19 | y = clamp16(a + rnu_round(alpha·b / 2^15)): the a << 15 term passes through the rounding unchanged |
| Reference.RefRoundsToNearest | src/q15_axpy_challenge.c:17-19 | the value before the clamp is the Q15 value nearest to alpha·b + a·2^15, with ties going up; the output is that value clamped |
| Reference.RefTiesRoundUp | src/q15_axpy_challenge.c:17 | alpha = 1, b = 16384, a = 0 gives 1, and alpha = −1 gives 0: exact ties round toward +∞ |
| Reference.RefExamples | src/q15_axpy_challenge.c:15-20 | a large-magnitude tie (alpha = 16384, b = 32767, a product of 16383.5 LSB) rounds up to 16384; a = 32767, b = 0 gives 32767 without clamping; large results clamp to 32767 and −32768 |
| Reference.AxpyRef | src/q15_axpy_challenge.c:11-22 | the loop writes y[i] = RefElem(a[i], b[i], alpha) for i < n, where each element depends only on a[i], b[i] and alpha; every other element of y is unchanged, so n ≤ 0 leaves y as it was |
| Rvv.Vse16 | src/q15_axpy_challenge.c:39 | a strip store puts the vl lanes at y[i..i+vl) and leaves every other element unchanged |
| Rvv.VlInRange | src/q15_axpy_challenge.c:31 | a vl meeting the constraints of section 6.3 of the RISC-V "V" extension 1.0 for a non-zero AVL lies in [1, AVL] and at most VLMAX |
| Rvv.ConformingIsStripChooser | src/q15_axpy_challenge.c:31 | every vsetvl that conforms to section 6.3 of the RISC-V "V" extension 1.0 gives strip lengths in [1, n − i], which is all the strip loops need |
| Rvv.MinVsetvl | src/q15_axpy_challenge.c:31 | vl = min(AVL, VLMAX) meets the constraints of section 6.3 of the RISC-V "V" extension 1.0, so the strip loops have at least one conforming vsetvl |
| Widening.WideningLaneIsReference | src/q15_axpy_challenge.c:34-38 | the 32-bit vsll and vadd do not wrap, and vnclip(vwmul(b, alpha) + (vsext(a) << 15), 15) under rnu equals the scalar reference |
| Widening.WideningKernel | src/q15_axpy_challenge.c:28-41 | for any strip lengths in [1, n − i]: i ends at n, no access leaves [0, n), y[0..n) equals the reference and the rest of y is untouched; with y disjoint from a and b, the result does not depend on the strips chosen |
| Widening.WideningM1 | src/q15_axpy_challenge.c:44 | the LMUL = 1 instance produces exactly the reference buffer for any VLEN ≥ 128 and any conforming vsetvl |
| Widening.WideningM4 | src/q15_axpy_challenge.c:45 | the LMUL = 4 instance produces exactly the reference buffer, hence the same buffer as m1 |
| Vsmul.RoundedProductRange | src/q15_axpy_challenge.c:57 | the rnu-rounded Q15 product lies in [−32767, 32768] and is 32768 (clipped by vsmul) only for alpha = b = −32768 |
| Vsmul.VsmulLaneVsReference | src/q15_axpy_challenge.c:57-58 | vsadd(a, vsmul(b, alpha)) equals the reference, except when alpha = b = −32768 and a < 0; there it is exactly 1 lower |
| Vsmul.VsmulAxpyVsReference | src/q15_axpy_challenge.c:57-58 | buffer-wise, the vsmul output is within 1 below the reference everywhere, and equal at index k < n iff k is not a corner; with alpha ≠ −32768 the buffers are identical |
| Vsmul.VsmulKernel | src/q15_axpy_challenge.c:51-61 | for any strip lengths, y[0..n) holds the vsmul lanes, the rest is untouched, and every element is within 1 below the reference |
| Vsmul.VsmulM1 | src/q15_axpy_challenge.c:64 | the LMUL = 1 instance yields the vsmul buffer for any conforming vsetvl |
| Vsmul.VsmulM4 | src/q15_axpy_challenge.c:65 | the LMUL = 4 instance yields the same vsmul buffer |
| Vsmul.VsmulM8 | src/q15_axpy_challenge.c:66 | the LMUL = 8 instance yields the same vsmul buffer |
| Audit.AbsDiff | src/q15_axpy_challenge.c:80 | the absolute difference of two int16 values is at most 65535, fitting int32, and is 0 iff they are equal |
| Audit.TallyPrefix | src/q15_axpy_challenge.c:77-83 | after k iterations: diff_count is the number of mismatching indices below k (so 0 ≤ diff_count ≤ k); max_diff bounds every difference and is 0 or attained; diff_count = 0 iff the prefixes agree |
| Audit.RunAudit | src/q15_axpy_challenge.c:76-85 | the verdict is EXACT iff the buffers agree on [0, n) iff diff_count = 0 iff max_diff = 0; max_diff is the largest difference; 0 ≤ diff_count ≤ max(n, 0) |
| Audit.AuditSelf | src/q15_axpy_challenge.c:76-85 | auditing a buffer against itself gives max_diff 0, diff_count 0, EXACT |
| Suite.AuditVsmulAgainstReference | src/q15_axpy_challenge.c:125-127 | the audit of a vsmul kernel reports max_diff ≤ 1, diff_count equal to the number of corner indices, and EXACT iff no index is a corner; with alpha ≠ −32768 it reports 0 / 0 / EXACT |
| Suite.AuditRound | src/q15_axpy_challenge.c:106-127 | in one round, the reference and both widening kernels audit as 0 / 0 / EXACT; the three vsmul kernels have max_diff ≤ 1; with the benchmark's alpha = 16384 all six are EXACT |

## Left out

- Allocation with `posix_memalign`, random test data from `rand()`,
  `memset`, `free`, the fixed size list and `main` (lines 88-145) are not
  modelled. They are I/O and resource handling, not arithmetic. In the
  round, `y_test` is modelled as all zeros, as after the `memset`. The
  allocation-failure path at lines 90-95 returns without freeing the
  buffers already allocated; this is a resource leak, not numeric, and it
  is not modelled.
- `rdcycle` and cycle counting (lines 68-74, 114-119) are not modelled. They
  read a hardware counter and carry no semantics.
- The float percentage and the text formatting of `run_audit` (lines
  84-85) are not modelled. The percentage is floating point, and for
  n = 0 it divides 0 by 0.
- `csrwi vxrm, 0` is not modelled as mutable machine state. The rounding
  mode is the fixed constant rnu. The `vxsat` flag that `vsmul`, `vsadd`
  and `vnclip` set is not modelled, because the kernels never read it.
- Macro instantiation and LMUL register grouping are represented only by
  which VLMAX the vsetvl parameter must respect. Alignment is not modelled.
- Widening.WideningKernel: takes `n` as a natural number. For a negative
  `n` the C loop converts `n` to `size_t` and runs far past the buffers.
- Vsmul.VsmulKernel: takes `n` as a natural number, for the same reason.
- Buffers that overlap are not modelled. `y` is taken to be disjoint from
  `a` and `b`, as in every call in the file, where they come from separate
  allocations. The C parameters carry no `restrict`, so a call with, say,
  `y = a + 1` would read elements an earlier strip already wrote, and its
  result would depend on the strip lengths. The strip-independence of the
  kernel contracts holds only for non-overlapping buffers.
- C's undefined or implementation-defined behaviour when shifting negative
  values is not modelled. `<< 15` is multiplication and `>> 15` is floor
  division, which is what the target compiler produces.
