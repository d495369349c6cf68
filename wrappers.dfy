/** Option and Result values for the engine's error returns. */
module Wrappers {

  datatype Option<+T> = None | Some(value: T)

  /** A success value or one of the engine's distinct error cases. */
  datatype Result<+R, +E> = Success(value: R) | Failure(error: E)
}
