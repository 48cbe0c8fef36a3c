/**
 * Wall-clock readings and the one conversion the services apply to them.
 */
module Clock {
  /** A `time.time()` reading in seconds. */
  type Time = t: real | t >= 0.0

  /**
   * Python's `int(x)` on a float: truncation toward zero, which is the floor
   * for a non-negative `x` and the ceiling for a negative one.
   */
  function Truncate(x: real): (n: int)
    ensures x >= 0.0 ==> 0 <= n && n as real <= x < n as real + 1.0
    ensures x < 0.0 ==> n <= 0 && x <= n as real < x + 1.0
  {
    if x >= 0.0 then x.Floor else -((-x).Floor)
  }
}
