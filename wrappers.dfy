/** Failure-carrying values: a missing value (Java's null) and an operation that
    either succeeds or stops with an error (a thrown exception). */
module Wrappers {

  datatype Option<+T> = None | Some(value: T)

  datatype Result<+R, +E> = Success(value: R) | Failure(error: E)
}
