/** A nullable value and a result-or-error datatype. */
module Wrappers {

  /** A Kotlin nullable value: `None` stands for `null`. */
  datatype Option<+T> = None | Some(value: T)

  /** The outcome of a call that may throw an exception. */
  datatype Result<+R, +E> = Success(value: R) | Failure(error: E)
}
