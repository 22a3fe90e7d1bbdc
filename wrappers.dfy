/** Failure-carrying results shared by every module of the model. */
module Wrappers {

  datatype Option<+T> = None | Some(value: T)

  /** The value-or-error pair that Go functions return as `(T, error)`. */
  datatype Result<+T, +E> = Success(value: T) | Failure(error: E)
}
