/** Value types standing in for Go's nil-able pointers and `error` returns. */
module Wrappers {

  /** A Go pointer that may be nil. */
  datatype Option<+T> = None | Some(value: T)

  /** A Go `(value, error)` pair, under the Go convention that the value is
      nil exactly when the error is not. */
  datatype Result<+T, +E> = Success(value: T) | Failure(error: E) {

    /** The value side of the pair: nil when there is an error. */
    function ToOption(): Option<T> {
      match this
      case Success(v) => Some(v)
      case Failure(_) => None
    }
  }

  /** A bare Go `error` return: nil (`Pass`) or an error value. */
  datatype Outcome<+E> = Pass | Fail(error: E)
}
