/** Failure-compatible wrappers used by the model: an optional value for
    properties that may be absent from a configuration object, and a result
    for operations that can raise an error. */
module Wrappers {

  /** A value that may be absent (`undefined` in the configuration object). */
  datatype Option<+T> = None | Some(value: T)

  /** Either a returned value or a raised error. */
  datatype Result<+T, +E> = Success(value: T) | Failure(error: E)
}
