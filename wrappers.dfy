/** The `Option` and `Result` datatypes shared by the modules of the model. */
module Wrappers {

  /** An optional value: the model's rendering of Python's `None`-or-value. */
  datatype Option<+T> = None | Some(value: T)

  /** A value or an error, for operations the source ends with an error response. */
  datatype Result<+R, +E> = Success(value: R) | Failure(error: E)
}
