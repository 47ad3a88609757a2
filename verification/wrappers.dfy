/** Failure-carrying result types shared by the engine and the command layer. */
module Wrappers {

  /** A value that may be missing; used for the partial number parser. */
  datatype Option<+T> = None | Some(value: T)

  /** Either a value or an error, mirroring Go's `(T, error)` return pairs. */
  datatype Result<+T, +E> = Success(value: T) | Failure(error: E)

  /** An error-only return, mirroring a Go function that returns just `error`. */
  datatype Outcome<+E> = Pass | Fail(error: E)
}
