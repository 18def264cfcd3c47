/** The source's nullable values and thrown exceptions, as values. */
module Wrappers {

  /** A Kotlin nullable: `None` stands for `null`. */
  datatype Option<+T> = None | Some(value: T)

  /** The outcome of an operation that may throw. */
  datatype Result<+R, +E> = Success(value: R) | Failure(error: E)
}
