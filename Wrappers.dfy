/** Option and Result values shared by every module: the source's `std::expected`
    lookups and its "skip this file" parse failures are both modelled with them. */
module Wrappers {

  datatype Option<+T> = None | Some(value: T)

  datatype Result<+T, +E> = Success(value: T) | Failure(error: E) {

    predicate IsFailure() {
      Failure?
    }

    function PropagateFailure<U>(): Result<U, E>
      requires Failure?
    {
      Failure(error)
    }

    function Extract(): T
      requires Success?
    {
      value
    }
  }

  /** Success or the absence-of-value outcome used by operations that only fail. */
  datatype Outcome<+E> = Pass | Fail(error: E)
}
