/** Go's 64-bit signed integers and the time units the counter uses. */
module Int64Arith {

  const MinInt64: int := -0x8000_0000_0000_0000
  const MaxInt64: int := 0x7fff_ffff_ffff_ffff
  const Modulus64: int := 0x1_0000_0000_0000_0000

  /** Go's `int64` (and `int` and `time.Duration`, both 64 bits wide here). */
  type Int64 = x: int | MinInt64 <= x <= MaxInt64

  /** Nanoseconds in one second: Go's `time.Second`. */
  const NanosPerSecond: int := 1_000_000_000
  /** Nanoseconds in one millisecond: the unit of `UnixMilli`. */
  const NanosPerMilli: int := 1_000_000

  /** The largest whole number of seconds whose nanosecond duration fits in an int64. */
  const MaxSeconds: int := MaxInt64 / NanosPerSecond

  /** Two's-complement wrap-around of Go's int64 arithmetic: the unique int64
      congruent to `x` modulo 2^64. */
  function Wrap64(x: int): (r: Int64)
    ensures MinInt64 <= x <= MaxInt64 ==> r == x
    ensures (x - r) % Modulus64 == 0
  {
    (x - MinInt64) % Modulus64 + MinInt64
  }

  /** `time.Second * d` for a duration `d`: an int64 product, so it wraps. */
  function SecondsToNanos(d: Int64): (r: Int64)
    ensures -MaxSeconds <= d <= MaxSeconds ==> r == d * NanosPerSecond
    ensures (NanosPerSecond * d - r) % Modulus64 == 0
  {
    Wrap64(NanosPerSecond * d)
  }

  /** `Time.UnixMilli`, the millisecond reading of an instant: Go computes
      `unixSec*1e3 + nsec/1e6` with `0 <= nsec < 1e9`, which is the floor of
      `ns / 1e6` also for instants before the epoch. */
  function UnixMilli(ns: int): (ms: int)
    ensures ms * NanosPerMilli <= ns < ms * NanosPerMilli + NanosPerMilli
  {
    ns / NanosPerMilli
  }

  /** `time.UnixMilli(ms)`: the instant `ms` milliseconds after the epoch. */
  function FromUnixMilli(ms: int): (ns: int)
    ensures UnixMilli(ns) == ms
    ensures ns % NanosPerMilli == 0
  {
    ms * NanosPerMilli
  }
}
