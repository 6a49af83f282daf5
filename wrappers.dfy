/** Failure-carrying return types: Kotlin's nullable results and thrown
    `require` failures become values the caller inspects. */
module Wrappers {

  /** A value that may be absent (Kotlin's `T?`). */
  datatype Option<+T> = None | Some(value: T)

  /** A value, or the error that stopped the operation from producing one. */
  datatype Result<+R, +E> = Success(value: R) | Failure(error: E)

  /** Completion without a value, or the error that stopped the operation. */
  datatype Outcome<+E> = Pass | Fail(error: E)
}
