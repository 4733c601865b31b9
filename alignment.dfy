/**
 The alignment planner: maps one pixel dimension of a decoded image to the
 dimension the rewriter resizes it to. Dimensions are Rust `u32` values.
 */
module Alignment {

  const U32_MAX: nat := 0xFFFF_FFFF

  /** An unsigned 32-bit integer, the type of image dimensions. */
  type U32 = n: nat | n <= U32_MAX

  /** A dimension is aligned when it is a positive multiple of 4. */
  predicate IsAligned(n: nat) {
    n > 0 && n % 4 == 0
  }

  /**
   Reference definition of the planner, independent of how it is computed:
   `r` is the largest multiple of 4 that does not exceed `n`, except that it
   is 4 when no positive multiple of 4 fits under `n`.
   */
  ghost predicate IsAlignedFloor(n: nat, r: nat) {
    && IsAligned(r)
    && (n < 4 ==> r == 4)
    && (n >= 4 ==> r <= n && forall m: nat :: IsAligned(m) && m <= n ==> m <= r)
  }

  /**
   Rounds a dimension down to a multiple of 4, with a floor of 4 so that a
   1-3 pixel (or empty) axis is never truncated to zero. The subtraction
   stays inside `U32` (it never underflows) and so does the result.
   */
  function ClosestMultiple4(num: U32): (r: U32)
    ensures IsAligned(r)
    ensures num < 4 ==> r == 4
    ensures num >= 4 ==> r <= num && num - r < 4
  {
    var adjusted: U32 := num - num % 4;
    if adjusted > 0 then adjusted else 4
  }

  /** The planner meets the reference definition: it picks the largest
      multiple of 4 not above `num`, or 4 for inputs below 4. */
  lemma ClosestMultiple4IsAlignedFloor(num: U32)
    ensures IsAlignedFloor(num, ClosestMultiple4(num))
  {
  }

  /** The reference definition has exactly one answer for each input, so the
      planner is the only function that meets it. */
  lemma AlignedFloorUnique(n: nat, r1: nat, r2: nat)
    requires IsAlignedFloor(n, r1) && IsAlignedFloor(n, r2)
    ensures r1 == r2
  {
  }

  /** A dimension is left as it is exactly when it is already a positive
      multiple of 4; this is the test that decides whether an image is
      resized. */
  lemma ClosestMultiple4FixedPoint(num: U32)
    ensures ClosestMultiple4(num) == num <==> IsAligned(num)
  {
  }

  /** Planning an already planned dimension changes nothing. */
  lemma ClosestMultiple4Idempotent(num: U32)
    ensures ClosestMultiple4(ClosestMultiple4(num)) == ClosestMultiple4(num)
  {
  }

  /** The planner is monotone non-decreasing: a larger dimension never plans
      to a smaller one. */
  lemma ClosestMultiple4Monotone(a: U32, b: U32)
    requires a <= b
    ensures ClosestMultiple4(a) <= ClosestMultiple4(b)
  {
  }
}
