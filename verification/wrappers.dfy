/** Optional values and success-or-error results, standing in for Python's
    `None` and for raised exceptions. */
module Wrappers {

  /** A value that may be absent: `None` plays the part of Python's `None`
      (or of a keyword argument that was not passed). */
  datatype Option<+T> = None | Some(value: T) {

    /** The held value, or `default` when there is none. */
    function GetOr(default: T): T {
      match this
      case Some(v) => v
      case None => default
    }
  }

  /** Either the value an operation returns or the error it raises. */
  datatype Result<+R, +E> = Success(value: R) | Failure(error: E)
}
