/** Option and Result values used for Python's None and for raised exceptions. */
module Results {

  datatype Option<+T> = None | Some(value: T) {
    /** The value, or `default` when absent (Python's `x or default`, `d.get(k, default)`). */
    function GetOr(default: T): (r: T)
      ensures Some? ==> r == value
      ensures None? ==> r == default
    {
      match this
      case Some(v) => v
      case None => default
    }
  }

  /** The outcome of an operation that may raise: a value, or the raised error. */
  datatype Result<+T, +E> = Success(value: T) | Failure(error: E)

  /** An HTTP error response raised by a route handler: its status code and its `detail` text. */
  datatype HttpError = HttpError(status: int, detail: string)
}
