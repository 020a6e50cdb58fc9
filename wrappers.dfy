/** Option and Result values shared by every module of the model. */
module Wrappers {

  /** A value that may be absent: `undefined`/`null` in the source. */
  datatype Option<+T> = None | Some(value: T)

  /** Either a value or the error a source function throws. */
  datatype Result<+T, +E> = Success(value: T) | Failure(error: E)
}
