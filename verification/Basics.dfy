/** Shared vocabulary: bytes, optional values and pairs indexed by direction. */
module Basics {

  type byte = b: int | 0 <= b < 256

  datatype Option<+T> = None | Some(value: T)

  function Min(a: int, b: int): int {
    if a <= b then a else b
  }

  function Max(a: int, b: int): int {
    if a >= b then a else b
  }

  /** The two kinds of stream. */
  datatype Dir = Bidi | Uni

  /** One value for each kind of stream. */
  datatype PerDir<+T> = PerDir(bidi: T, uni: T) {
    function Get(d: Dir): T {
      match d
      case Bidi => bidi
      case Uni => uni
    }
  }

  function Put<T>(p: PerDir<T>, d: Dir, v: T): PerDir<T> {
    match d
    case Bidi => p.(bidi := v)
    case Uni => p.(uni := v)
  }
}
