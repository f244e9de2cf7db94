/** Small value types shared by the other modules. */
module Base {

  /** A value that may be absent (a missing child element, an unset field). */
  datatype Option<+T> = None | Some(value: T)

  function Max(a: int, b: int): int
  {
    if a < b then b else a
  }
}
