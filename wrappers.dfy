/** Optional values and results that carry an error, as the model's JavaScript
    `undefined` and thrown exceptions. */
module Wrappers {

  /** `undefined` or a value. */
  datatype Option<+T> = None | Some(value: T)

  /** A computed value, or the error a computation threw. Failure-compatible,
      so `:-` propagates the first error as a `throw` would. */
  datatype Result<+R, +E> = Success(value: R) | Failure(error: E) {

    predicate IsFailure() {
      Failure?
    }

    function PropagateFailure<U>(): Result<U, E>
      requires Failure?
    {
      Failure(error)
    }

    function Extract(): R
      requires Success?
    {
      value
    }
  }
}
