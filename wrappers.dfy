/** Option and Result values used in place of Go's nil pointers and (value, error) pairs. */
module Wrappers {

  /** A value that may be absent (a nil pointer in the source). */
  datatype Option<+T> = None | Some(value: T)

  /** The outcome of an operation that may fail. The source wraps its EC2 errors with
      context text; the model keeps only the fact that the operation failed. */
  datatype Result<+T> = Success(value: T) | Failure
}
