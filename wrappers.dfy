/** Option and Result, as used throughout the model for absent object keys and
    for promises that resolve or reject. */
module Wrappers {

  datatype Option<+T> = None | Some(value: T) {
    /** The value if present, or `default` (JavaScript's `x ?? default` on a key). */
    function GetOr(default: T): T {
      match this
      case Some(v) => v
      case None => default
    }

    /** `this` if present, else `other`: how `{ ...defaults, ...data }` picks a key. */
    function Or(other: Option<T>): Option<T> {
      if Some? then this else other
    }
  }

  datatype Result<+R, +E> = Success(value: R) | Failure(error: E)
}
