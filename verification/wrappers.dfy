/** Absent values and failed calls. `Option` stands for a TypeScript value
    that may be `null`, `undefined` or missing; `Result` for a call that
    either returns or throws. Both support `:-`, so a failure returned early
    reads like the `throw` it models. */
module Wrappers {

  /** Either nothing or one value. */
  datatype Option<+T> = None | Some(value: T) {

    predicate IsFailure() {
      None?
    }

    function PropagateFailure<U>(): Option<U>
      requires None?
    {
      None
    }

    function Extract(): T
      requires Some?
    {
      value
    }
  }

  /** A returned value, or the error a call threw instead. */
  datatype Result<+R, +E> = Success(value: R) | Failure(error: E) {

    predicate IsFailure() {
      Failure?
    }

    function PropagateFailure<U>(): Result<U, E>
      requires Failure?
    {
      Failure(error)
    }

    function Extract(): R
      requires Success?
    {
      value
    }
  }
}
