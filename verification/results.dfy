/** Optional values and failure-compatible results, used for the keys a
    Cost Explorer response may leave out and for the lookups that fail on them.
 */
module Results {

  /** A value that may be absent, as an optional member of a response is. */
  datatype Option<+T> = None | Some(value: T) {

    /** The value if present, otherwise `default` (Python's `dict.get(key, default)`). */
    function GetOr(default: T): T {
      match this
      case Some(v) => v
      case None => default
    }
  }

  /** Either the value computed or the error that stopped the computation;
      usable with `:-`, so the first failure propagates unchanged. */
  datatype Result<+T, +E> = Success(value: T) | Failure(error: E) {

    predicate IsFailure() {
      Failure?
    }

    function PropagateFailure<U>(): Result<U, E>
      requires Failure?
    {
      Failure(error)
    }

    function Extract(): T
      requires Success?
    {
      value
    }
  }
}
