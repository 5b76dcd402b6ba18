/** The optional value used for JavaScript's `null`/`undefined` slots and missing fields. */
module Wrappers {

  datatype Option<+T> = None | Some(value: T)

  function Min(a: int, b: int): int
  {
    if a <= b then a else b
  }
}
