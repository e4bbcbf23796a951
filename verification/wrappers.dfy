/** Optional values and failure-compatible results, used for the optional keys of
    the calendar API's JSON records and for Python exceptions. */
module Wrappers {

  /** A JSON key that may be absent: `d.get(key)` is `None` exactly when the key is missing. */
  datatype Option<+T> = None | Some(value: T) {

    /** `d.get(key, default)`: the stored value when present, the default otherwise. */
    function GetOr(default: T): T {
      match this
      case Some(v) => v
      case None => default
    }
  }

  /** Either a value, or the exception that Python code raised instead of producing it. */
  datatype Result<+R, +E> = Success(value: R) | Failure(error: E) {

    predicate IsFailure() {
      Failure?
    }

    function PropagateFailure<U>(): Result<U, E>
      requires Failure?
    {
      Failure(error)
    }

    function Extract(): R
      requires Success?
    {
      value
    }
  }
}
