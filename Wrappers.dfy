/** Failure-compatible result types shared by the modules of this project. */
module Wrappers {

  /** A value that may be absent: Kotlin's nullable types. */
  datatype Option<+T> = None | Some(value: T)

  /** A computation that either yields a value or fails where the source throws. */
  datatype Result<+R, +E> = Success(value: R) | Failure(error: E)
}
