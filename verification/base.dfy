/** Small shared vocabulary: an optional value and Go's 64-bit integer ranges. */
module Base {

  /** A value that may be absent (a failed parse, a missing map key). */
  datatype Option<+T> = None | Some(value: T)

  /** Bounds of Go's `int64` (and of `int` on the 64-bit targets the service runs on). */
  const Int64Min: int := -0x8000_0000_0000_0000
  const Int64Max: int := 0x7FFF_FFFF_FFFF_FFFF

  /** Number of values of Go's `uint64`; conversions to it wrap modulo this. */
  const Uint64Modulus: int := 0x1_0000_0000_0000_0000

  predicate InInt64(n: int) {
    Int64Min <= n <= Int64Max
  }

  /** Nanoseconds per second (`time.Second`). */
  const NanosPerSecond: int := 1_000_000_000

  /**
   * Go's `time.Duration` arithmetic: a difference of two instants that does
   * not fit an int64 nanosecond count saturates at the nearest bound.
   */
  function SaturateDuration(d: int): (r: int)
    ensures InInt64(r)
    ensures InInt64(d) ==> r == d
    ensures d > Int64Max ==> r == Int64Max
    ensures d < Int64Min ==> r == Int64Min
  {
    if d > Int64Max then Int64Max else if d < Int64Min then Int64Min else d
  }
}
