/** Vocabulary shared by the modules of the model. */
module Common {
  datatype Option<+T> = None | Some(value: T)

  function Max(a: int, b: int): int {
    if a >= b then a else b
  }

  /** Go's `int64`: a sum outside the range wraps around. */
  const INT64_RANGE := 0x1_0000_0000_0000_0000
  const INT64_HALF := 0x8000_0000_0000_0000

  function Wrap64(x: int): int {
    (x + INT64_HALF) % INT64_RANGE - INT64_HALF
  }

  predicate FitsInt64(x: int) {
    -INT64_HALF <= x < INT64_HALF
  }
}
