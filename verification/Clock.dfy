/** Times are nanoseconds since the epoch; `Seconds` is Go's `Unix()`, rounded down. */
module Clock {
  const SECOND := 1_000_000_000

  function Seconds(nanos: int): int {
    nanos / SECOND
  }
}
