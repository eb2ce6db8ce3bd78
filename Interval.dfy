/**
 * The seconds-to-milliseconds conversion of the check intervals in Main
 * (CSCanary/Program.cs). The configured seconds are a 32-bit C# `int` and the
 * product is computed in C#'s default unchecked context, so it wraps around.
 */
module Interval {
  import opened Wrappers

  const MillisPerSecond: int := 1000

  const Int32Min: int := -0x8000_0000
  const Int32Max: int := 0x7fff_ffff
  const Int32Modulus: int := 0x1_0000_0000

  predicate IsInt32(x: int)
  {
    Int32Min <= x <= Int32Max
  }

  /** A value of C#'s `int`. */
  type Int32 = x: int | IsInt32(x)

  /** The two's-complement reading of the low 32 bits of `x`: what unchecked `int` arithmetic yields. */
  function Wrap(x: int): (r: Int32)
    ensures (x - r) % Int32Modulus == 0
    ensures IsInt32(x) ==> r == x
  {
    var m := x % Int32Modulus;
    if m <= Int32Max then m else m - Int32Modulus
  }

  /** `seconds * millisPerSecond` exactly as Main computes it, wrap-around included. */
  function SecondsToMillisAsWritten(seconds: Int32): (millis: Int32)
    ensures IsInt32(seconds * MillisPerSecond) ==> millis == seconds * MillisPerSecond
    ensures (seconds * MillisPerSecond - millis) % Int32Modulus == 0
  {
    Wrap(seconds * MillisPerSecond)
  }

  /**
   * A configured interval of 4294968 seconds (about 49.7 days) becomes a timer
   * interval of 704 milliseconds: the checks would run far more often than configured.
   */
  lemma IntervalOverflowExample()
    ensures SecondsToMillisAsWritten(4294968) == 704
    ensures 4294968 * MillisPerSecond != 704
  {
  }

  /** Every interval whose product leaves the `int` range converts to the wrong number of milliseconds. */
  lemma AsWrittenWrongOnOverflow(seconds: Int32)
    requires !IsInt32(seconds * MillisPerSecond)
    ensures SecondsToMillisAsWritten(seconds) != seconds * MillisPerSecond
  {
  }

  /**
   * The conversion as evidently intended: the interval in milliseconds when it
   * fits in an `int`, and no interval otherwise.
   */
  function SecondsToMillis(seconds: Int32): (millis: Option<Int32>)
    ensures millis.Some? <==> IsInt32(seconds * MillisPerSecond)
    ensures millis.Some? ==> millis.value / MillisPerSecond == seconds && millis.value % MillisPerSecond == 0
    ensures millis.Some? ==> millis.value == SecondsToMillisAsWritten(seconds)
  {
    var product := seconds * MillisPerSecond;
    if IsInt32(product) then Some(product) else None
  }
}
