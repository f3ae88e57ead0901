/** Types every module shares. */
module Basics {

  datatype Option<+T> = None | Some(value: T)

  /** Points in time and durations, in nanoseconds. */
  type Time = int

  const SECOND: Time := 1_000_000_000
  const MINUTE: Time := 60 * SECOND
  const HOUR: Time := 60 * MINUTE

  function Max(a: int, b: int): int {
    if a < b then b else a
  }
}
