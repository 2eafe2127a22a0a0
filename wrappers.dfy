/** Python's `None`-or-value, used wherever the source returns `Optional[...]`. */
module Wrappers {

  datatype Option<T> = None | Some(value: T) {

    /** The value, or `default` when there is none (Python's `x or default` for a missing key). */
    function GetOr(default: T): T {
      match this
      case Some(v) => v
      case None => default
    }
  }

  /** A value, or the exception that stopped the computation. */
  datatype Result<T, E> = Ok(value: T) | Err(error: E)
}
