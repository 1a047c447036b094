/** Small shared vocabulary: an optional value, integer minimum and maximum. */
module Wrappers {

  /** A value that may be missing (the source's `null` / `undefined`). */
  datatype Option<+T> = None | Some(value: T)

  /** `Math.min` on two integers. */
  function Min(a: int, b: int): (m: int)
    ensures m <= a && m <= b
    ensures m == a || m == b
  {
    if a <= b then a else b
  }

  /** The larger of two integers. */
  function Max(a: int, b: int): (m: int)
    ensures m >= a && m >= b
    ensures m == a || m == b
  {
    if a >= b then a else b
  }
}
