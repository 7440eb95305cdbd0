/** Optional values and the outcome of a call that may raise. */
module Wrappers {

  /** A value that may be absent: Python's `None` or a missing key. */
  datatype Option<T> = None | Some(value: T) {

    /** The value, or `default` when absent (`dict.get(key, default)`). */
    function GetOr(default: T): T {
      match this
      case Some(v) => v
      case None => default
    }
  }

  /** A call that either returns a value or raises an exception carrying a message. */
  datatype Outcome<T> = Ok(value: T) | Raised(error: string) {

    /** The returned value, or `fallback` when the call raised. */
    function OrElse(fallback: T): T {
      match this
      case Ok(v) => v
      case Raised(_) => fallback
    }
  }
}
