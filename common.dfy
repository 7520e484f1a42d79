/** Shared vocabulary: optional values and the integer time axes. */
module Common {

  /** Python's `None` / value, for nullable fields and optional arguments. */
  datatype Option<+T> = None | Some(value: T)

  /** A calendar date, as a day number (consecutive days differ by one). */
  type Day = int

  /** A point in time (a timestamp), on one abstract integer axis. */
  type Instant = int

  function Min(a: int, b: int): int { if a <= b then a else b }

  function Max(a: int, b: int): int { if a >= b then a else b }
}
