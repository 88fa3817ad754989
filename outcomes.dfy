/** Failure-carrying wrappers shared by every module of the model. */
module Outcomes {

  /** A value that may be absent: an unset optional proto field, a missing map entry. */
  datatype Option<+T> = None | Some(value: T)

  /** A successful value or the error that the source raises or returns instead. */
  datatype Result<+T, +E> = Success(value: T) | Failure(error: E)
}
