/** Small shared vocabulary. */
module Base {

  datatype Option<+T> = None | Some(value: T)

  /** A database identifier. The source draws random UUIDs; the model draws fresh naturals. */
  type Id = nat

  function Max(a: int, b: int): int {
    if a < b then b else a
  }
}
