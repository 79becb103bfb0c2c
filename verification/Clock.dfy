/** Time is counted in microseconds. */
module Clock {
  const HOUR: int := 3_600_000_000
  const DAY: int := 24 * HOUR
}
