/** Option and Result: how the model writes Python's None/default lookups and raised exceptions. */
module Wrappers {

  datatype Option<T> = None | Some(value: T) {
    /** The wrapped value, or `default` when there is none (Python's `d.get(key, default)`). */
    function GetOr(default: T): T {
      match this
      case Some(v) => v
      case None => default
    }
  }

  /** A call that either returns a value or raises an exception carrying a message. */
  datatype Result<T, E> = Success(value: T) | Failure(error: E)
}
