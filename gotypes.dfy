/**
 * The Go value types the core relies on: 64-bit signed integers with the
 * wrap-around of Go's `*` and `+`, `time.Duration`, instants of `time.Time`,
 * and `float64` values carried as their IEEE 754 bit patterns.
 */
module GoTypes {

  const Int64Min: int := -0x8000_0000_0000_0000
  const Int64Max: int := 0x7FFF_FFFF_FFFF_FFFF
  const TwoTo64: int := 0x1_0000_0000_0000_0000

  /** Go's `int64`. */
  type Int64 = x: int | -0x8000_0000_0000_0000 <= x <= 0x7FFF_FFFF_FFFF_FFFF

  /** The `int64` that Go's two's-complement arithmetic produces for the exact value `x`. */
  function Wrap64(x: int): (r: Int64)
    ensures (r - x) % TwoTo64 == 0
    ensures Int64Min <= x <= Int64Max ==> r == x
  {
    var m := x % TwoTo64;
    if m <= Int64Max then m else m - TwoTo64
  }

  /** Go's `a / b` on integers, which truncates toward zero (Dafny's `/` is Euclidean). */
  function TruncDiv(a: int, b: int): (q: int)
    requires b > 0
    ensures a >= 0 ==> q * b <= a < (q + 1) * b
    ensures a < 0 ==> (q - 1) * b < a <= q * b
  {
    if a >= 0 then a / b else -((-a) / b)
  }

  /** `time.Duration`: a count of nanoseconds held in an `int64`. */
  type Duration = Int64

  const Nanosecond: Duration := 1
  const Millisecond: Duration := 1_000_000
  const Second: Duration := 1_000_000_000
  const Minute: Duration := 60_000_000_000

  /** `a * b` on two `time.Duration` values, wrapping like Go's `int64` product. */
  function MulDuration(a: Duration, b: Duration): Duration {
    Wrap64(a * b)
  }

  /** `a + b` on two `time.Duration` values, wrapping like Go's `int64` sum. */
  function AddDuration(a: Duration, b: Duration): Duration {
    Wrap64(a + b)
  }

  /** `d.Milliseconds()`: the duration as whole milliseconds, truncated toward zero. */
  function Milliseconds(d: Duration): (ms: Int64)
    ensures d >= 0 ==> 0 <= ms && ms * Millisecond <= d < (ms + 1) * Millisecond
    ensures d < 0 ==> ms <= 0 && (ms - 1) * Millisecond < d <= ms * Millisecond
  {
    TruncDiv(d, Millisecond)
  }

  /**
   * An instant of `time.Time`, as nanoseconds since the Unix epoch. `Add`
   * is `+`, `Before` is `<` and `After` is `>`.
   */
  type Instant = int

  /** `time.Time{}`: January 1, year 1, 00:00:00 UTC. */
  const ZeroTime: Instant := -62_135_596_800 * Second

  /** `time.UnixMilli(ms)`: the instant `ms` milliseconds after the Unix epoch. */
  function FromUnixMilli(ms: Int64): (t: Instant)
    ensures t % Millisecond == 0 && t / Millisecond == ms
  {
    ms * Millisecond
  }

  /** `t.UnixMilli()`: whole milliseconds since the epoch, rounded down, in an `int64`. */
  function UnixMilli(t: Instant): Int64 {
    Wrap64(t / Millisecond)
  }

  /** A Go `float64`, carried as its IEEE 754 binary64 bit pattern; the zero value is +0.0. */
  type Float64 = bv64

  const FloatZero: Float64 := 0
  const FloatOne: Float64 := 0x3FF0_0000_0000_0000

  /** False exactly for NaN and the two infinities (all exponent bits set). */
  predicate IsFinite(f: Float64) {
    (f >> 52) & 0x7FF != 0x7FF
  }
}
