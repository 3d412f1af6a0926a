/** Failure-carrying datatypes used to model Swift's optionals and `throws`. */
module Wrappers {

  /** A Swift optional: `nil` or a wrapped value. */
  datatype Option<+T> = None | Some(value: T)

  /** The outcome of a Swift function that either returns a value or throws an error. */
  datatype Result<+R, +E> = Success(value: R) | Failure(error: E)

  /** The outcome of a throwing Swift function whose return value is of no interest. */
  datatype Outcome<+E> = Pass | Fail(error: E)
}
