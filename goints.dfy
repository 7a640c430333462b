/** Go's fixed-width integers, on top of Dafny's unbounded `int`. */
module GoInts {

  const TwoTo31: int := 0x8000_0000
  const TwoTo32: int := 0x1_0000_0000
  const TwoTo63: int := 0x8000_0000_0000_0000
  const TwoTo64: int := 0x1_0000_0000_0000_0000

  /** Go's `int` and `int64` on a 64-bit platform. */
  type Int64 = x: int | -TwoTo63 <= x < TwoTo63

  /** Go's `int32`. */
  type Int32 = x: int | -TwoTo31 <= x < TwoTo31

  /** Go's `time.Duration`: a signed 64-bit count of nanoseconds. */
  type Duration = Int64

  /** Go's `time.Second`. */
  const NanosPerSecond: int := 1_000_000_000

  /** The largest whole number of seconds a `time.Duration` holds (about 292 years). */
  const MaxDurationSeconds: int := 9_223_372_036

  /** Two's-complement wrap-around to 64 bits, as Go's `int64` arithmetic does. */
  function WrapInt64(x: int): (r: Int64)
    ensures (r - x) % TwoTo64 == 0
    ensures -TwoTo63 <= x < TwoTo63 ==> r == x
  {
    (x + TwoTo63) % TwoTo64 - TwoTo63
  }

  /** The conversion `int32(x)`: keeps the low 32 bits, read as two's complement. */
  function ToInt32(x: Int64): (r: Int32)
    ensures (r - x) % TwoTo32 == 0
    ensures -TwoTo31 <= x < TwoTo31 ==> r == x
  {
    (x + TwoTo31) % TwoTo32 - TwoTo31
  }

  /** `time.Duration(s) * time.Second`: the product wraps modulo 2^64. */
  function SecondsToDuration(s: Int64): (d: Duration)
    ensures (d - s * NanosPerSecond) % TwoTo64 == 0
    ensures -MaxDurationSeconds <= s <= MaxDurationSeconds ==> d == s * NanosPerSecond
  {
    WrapInt64(s * NanosPerSecond)
  }

  /** A nonzero `int` can still convert to a zero `int32`. */
  lemma NonzeroToZeroInt32()
    ensures ToInt32(TwoTo32) == 0
  {
  }

  /** A nonzero number of seconds can still wrap to a zero `time.Duration`. */
  lemma NonzeroToZeroDuration()
    ensures SecondsToDuration(0x80_0000_0000_0000) == 0
  {
  }
}
