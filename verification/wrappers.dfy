/** Failure-carrying datatypes used by the room registry and the server step. */
module Wrappers {

  /** A value that may be absent (the server's `null` / missing key). */
  datatype Option<+T> = None | Some(value: T)

  /** Either a value or the error that was reported instead. */
  datatype Result<+R, +E> = Success(value: R) | Failure(error: E)
}
