/** Shared vocabulary: options, results, and instants and durations in whole nanoseconds. */
module Base {

  datatype Option<+T> = None | Some(value: T)

  datatype Result<+T, +E> = Ok(value: T) | Err(error: E)

  type Time = int
  type Duration = int

  const SECOND: Duration := 1_000_000_000
  const MINUTE: Duration := 60 * SECOND
  const HOUR: Duration := 60 * MINUTE
  const DAY: Duration := 24 * HOUR

  /** How long finished jobs and their events are kept. */
  const OUTBOX_RETENTION: Duration := 7 * DAY

  function Coalesce<T>(o: Option<T>, v: T): Option<T> {
    if o.Some? then o else Some(v)
  }

  function Min(a: int, b: int): int {
    if a <= b then a else b
  }

  function Max(a: int, b: int): int {
    if a <= b then b else a
  }

  const MIN_INT64: int := -0x8000_0000_0000_0000
  const MAX_INT64: int := 0x7fff_ffff_ffff_ffff
}
