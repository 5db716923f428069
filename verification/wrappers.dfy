/** Option and Result: Go's `(value, error)` returns and nil-able errors, as values. */
module Wrappers {

  datatype Option<+T> = None | Some(value: T)

  /** A Go call that returns either a value or a non-nil error, whose text is the error string. */
  datatype Result<+R, +E> = Success(value: R) | Failure(error: E) {

    /** The error, if any, as Go's nil-able `error` return. */
    function ErrorOption(): (e: Option<E>)
      ensures e.Some? <==> Failure?
      ensures Failure? ==> e.value == error
    {
      match this
      case Success(_) => None
      case Failure(e) => Some(e)
    }
  }
}
