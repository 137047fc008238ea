/** Failure-compatible result types shared by the other modules. */
module Wrappers {

  /** A value that may be absent, as an optional field of a JSON object. */
  datatype Option<+T> = None | Some(value: T)

  /** Either the value a call produces or the error it rejects with. */
  datatype Result<+R, +E> = Success(value: R) | Failure(error: E)
}
