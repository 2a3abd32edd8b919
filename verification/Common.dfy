/** Shared vocabulary: optional values and time. */
module Common {

  datatype Option<+T> = None | Some(value: T)

  function Max(a: int, b: int): int {
    if a < b then b else a
  }

  /** Instants are whole seconds; this is the length of `n` days. */
  function Days(n: int): int {
    86400 * n
  }
}
