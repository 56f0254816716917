/** Durations. Instants and durations are integer nanoseconds. */
module Clock {
  const SECOND: int := 1_000_000_000
  const MINUTE: int := 60 * SECOND
  const HOUR: int := 60 * MINUTE
}
