/** Optional values and success-or-error results, shared by every module. */
module Wrappers {

  /** A value that may be absent (`undefined` or `null` in the system). */
  datatype Option<+T> = None | Some(value: T) {
    /** The value, or `default` when absent: a destructuring default. */
    function GetOr(default: T): T {
      match this
      case Some(v) => v
      case None => default
    }
  }

  /** What an awaited call produced: a value, or the error it threw. */
  datatype Result<+T, +E> = Ok(value: T) | Err(error: E)
}
