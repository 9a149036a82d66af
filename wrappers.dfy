/** Option and Result, the two failure-compatible wrappers the pipeline uses. */
module Wrappers {

  datatype Option<+T> = None | Some(value: T)

  /** A step of the run either yields a value or stops it with an error. */
  datatype Result<+R, +E> = Success(value: R) | Failure(error: E) {

    predicate IsFailure() {
      Failure?
    }

    function PropagateFailure<U>(): Result<U, E>
      requires Failure?
    {
      Failure(this.error)
    }

    function Extract(): R
      requires Success?
    {
      value
    }
  }
}
