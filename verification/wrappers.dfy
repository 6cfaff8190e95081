/** Failure-compatible wrappers: Kotlin's nullable values become `Option`,
    a constructor that throws becomes a function returning `Result`. */
module Wrappers {

  /** A value that may be absent (Kotlin `T?`). */
  datatype Option<+T> = None | Some(value: T)

  /** Either a successfully built value or the error the source would throw. */
  datatype Result<+R, +E> = Success(value: R) | Failure(error: E)
}
