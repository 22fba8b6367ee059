/** Failure-carrying results used throughout the model. A Go function returning `error`
    becomes an Outcome (Pass stands for a nil error); one returning `(T, error)` becomes a
    Result. */
module Wrappers {

  datatype Result<+T, +E> = Success(value: T) | Failure(error: E)

  datatype Outcome<+E> = Pass | Fail(error: E)
}
