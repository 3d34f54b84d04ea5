/** Failure-compatible wrappers used throughout the model: an optional value
    (Java's nullable reference) and a result that is either a value or an
    error: an accessor's invalid argument or a malformed document. */
module Wrappers {

  datatype Option<+T> = None | Some(value: T)

  datatype Result<+T, +E> = Success(value: T) | Failure(error: E)
}
