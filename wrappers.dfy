/** Option and Result values shared by the chat modules. */
module Wrappers {

  /** An absent (Python `None`) or present value. */
  datatype Option<+T> = None | Some(value: T)

  /** The outcome of an operation that may raise. */
  datatype Result<+R, +E> = Success(value: R) | Failure(error: E)
}
