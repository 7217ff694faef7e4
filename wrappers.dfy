/** Failure-carrying result types shared by the whole model. */
module Wrappers {

  datatype Option<+T> = None | Some(value: T)

  datatype Result<+T, +E> = Success(value: T) | Failure(error: E)

  /** The result of an operation that only reports an error, like a Go
      function returning `error`: `Pass` stands for `nil`. */
  datatype Outcome<+E> = Pass | Fail(error: E)
}
