/** Failure-carrying values: Go's `(T, error)` results and nil-or-error returns. */
module Wrappers {

  /** `None` plays Go's `nil`; `Some(v)` a present value. */
  datatype Option<+T> = None | Some(value: T)

  /** A value or an error, never both: Go's `(x, nil)` or `(nil, err)`. */
  datatype Result<+R, +E> = Success(value: R) | Failure(error: E)
}
