/** Option and Result, the two failure-carrying datatypes the model shares. */
module Wrappers {

  /** A value that may be absent: TypeScript's `T | null` or `T | undefined`. */
  datatype Option<+T> = None | Some(value: T)

  /** A computation that either returns a value or throws an error. */
  datatype Result<+T, +E> = Success(value: T) | Failure(error: E)

  /** The last element of a non-empty sequence: what `Array.prototype.pop` returns. */
  function Last<T>(s: seq<T>): T
    requires |s| > 0
  {
    s[|s| - 1]
  }
}
