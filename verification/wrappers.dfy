/** Failure-carrying wrappers used throughout the model: `Option` for a value
    that may be absent (Python's `None`), `Result` for an operation that may
    raise an exception instead of returning. */
module Wrappers {

  datatype Option<+T> = None | Some(value: T)

  datatype Result<+R, +E> = Success(value: R) | Failure(error: E)

  /** The Python exceptions the modelled code can raise. */
  datatype Exception = IndexError | ValueError | ZeroDivisionError
}
