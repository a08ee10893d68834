/** Java value types the client library works with, stated as Dafny values. */
module Primitives {

  /** A reference that may be null (a Java field or argument of object type). */
  datatype Option<T> = None | Some(value: T)

  /** Java's 32-bit `int`, used for HTTP status codes and the retry count. */
  newtype Int32 = x: int | -0x8000_0000 <= x < 0x8000_0000

  /** `java.time.Duration`, kept at its own precision: a signed number of nanoseconds. */
  datatype Duration = Duration(nanos: int)

  const NanosPerSecond: int := 1_000_000_000

  /** `Duration.ofSeconds(s)`. */
  function OfSeconds(s: int): (d: Duration)
    ensures d.nanos / NanosPerSecond == s && d.nanos % NanosPerSecond == 0
  {
    Duration(s * NanosPerSecond)
  }
}
