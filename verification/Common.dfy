/** What several components share. */
module Common {

  datatype Option<+T> = None | Some(value: T)

  /** One second in nanoseconds, the unit of all durations and times. */
  const SECOND: int := 1_000_000_000
}
