/** Option and Result, as the archive model needs them. */
module Wrappers {

  /** An optional value: Go's nil map or nil pointer is `None`. */
  datatype Option<+T> = None | Some(value: T)

  /** A value or the error that prevented computing it. */
  datatype Result<+R, +E> = Success(value: R) | Failure(error: E)
}
