/** Go's 64-bit integers, and the durations that the client makes of the server's milliseconds. */
module GoInt {

  const MIN_INT64 := -0x8000_0000_0000_0000
  const MAX_INT64 := 0x7FFF_FFFF_FFFF_FFFF
  const TWO_TO_64 := 0x1_0000_0000_0000_0000

  type Int64 = n: int | MIN_INT64 <= n <= MAX_INT64

  /** The value that arithmetic on 64-bit integers leaves of `n`. */
  function Wrap(n: int): (r: Int64)
    ensures (n - r) % TWO_TO_64 == 0
    ensures MIN_INT64 <= n <= MAX_INT64 ==> r == n
  {
    (n - MIN_INT64) % TWO_TO_64 + MIN_INT64
  }

  /** Two numbers wrap to the same value exactly when they differ by a multiple of 2 to the 64th. */
  lemma WrapsAlike(m: int, n: int)
    ensures Wrap(m) == Wrap(n) <==> (m - n) % TWO_TO_64 == 0
  {
  }

  const NANOS_PER_MILLI := 1_000_000

  /** time.Duration(millis) * time.Millisecond */
  function Nanos(millis: Int64): Int64 {
    Wrap(millis * NANOS_PER_MILLI)
  }

  /** Resetting a ticker to the server's ping interval panics; an interval of zero leaves it alone. */
  predicate TickerPanics(millis: Int64) {
    millis != 0 && Nanos(millis) <= 0
  }

  /** Up to about 292 years the sign of the interval decides. */
  lemma TickerRange(millis: Int64)
    requires -9_223_372_036_854 <= millis <= 9_223_372_036_854
    ensures TickerPanics(millis) <==> millis < 0
    ensures Nanos(millis) == 1_000_000 * millis
  {
  }

  /** One millisecond more and the product wraps around. */
  lemma TickerWraps()
    ensures TickerPanics(9_223_372_036_855) && !TickerPanics(-9_223_372_036_855)
  {
  }
}
