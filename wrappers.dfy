/** Option and Result types shared by the modules of the model. */
module Wrappers {

  /** A value that may be absent: Python's `Optional[...]`, with `None` as `None`. */
  datatype Option<+T> = None | Some(value: T)

  /** The outcome of a call that may raise: `Failure` carries the exception's text. */
  datatype Result<+T, +E> = Success(value: T) | Failure(error: E)
}
