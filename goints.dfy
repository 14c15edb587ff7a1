/** Go's fixed-width integers, as subsets of Dafny's unbounded `int`. */
module GoInts {

  const MIN_INT32: int := -0x8000_0000
  const MAX_INT32: int := 0x7FFF_FFFF
  const MIN_INT64: int := -0x8000_0000_0000_0000
  const MAX_INT64: int := 0x7FFF_FFFF_FFFF_FFFF

  type Int32 = x: int | MIN_INT32 <= x <= MAX_INT32
  type Int64 = x: int | MIN_INT64 <= x <= MAX_INT64

  /** `x++` on a Go `int64`: two's-complement arithmetic, so the largest value wraps to the smallest. */
  function Inc64(x: Int64): (r: Int64)
    ensures x < MAX_INT64 ==> r == x + 1
    ensures x == MAX_INT64 ==> r == MIN_INT64
  {
    (x + 1 - MIN_INT64) % 0x1_0000_0000_0000_0000 + MIN_INT64
  }
}
