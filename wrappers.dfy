/** Failure-compatible wrappers shared by the model.
    - Option<T> stands for a JavaScript value that may be `undefined`.
    - Result<T, E> stands for a promise that resolves (Success) or rejects (Failure),
      and for a synchronous call that returns or throws.
    - Outcome<E> stands for a `Promise<void>` that resolves or rejects.
 */
module Wrappers {

  datatype Option<+T> = None | Some(value: T) {
    predicate IsFailure() { None? }

    function PropagateFailure<U>(): Option<U>
      requires None?
    {
      None
    }

    function Extract(): T
      requires Some?
    {
      value
    }
  }

  datatype Result<+T, +E> = Success(value: T) | Failure(error: E) {
    predicate IsFailure() { Failure? }

    function PropagateFailure<U>(): Result<U, E>
      requires Failure?
    {
      Failure(error)
    }

    function Extract(): T
      requires Success?
    {
      value
    }
  }

  datatype Outcome<+E> = Pass | Fail(error: E)
}
