/** The Option and Result datatypes shared by the modules of the model. */
module Wrappers {

  /** An optional value: an absent attribute, an unset query parameter, a null column. */
  datatype Option<+T> = None | Some(value: T)

  /** The outcome of an operation that may throw: its value, or the error it raised. */
  datatype Result<+R, +E> = Success(value: R) | Failure(error: E)
}
