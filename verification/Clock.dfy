/** Durations, in nanoseconds. */
module Clock {
  const SECOND := 1_000_000_000
  const HOUR := 3600 * SECOND
}
