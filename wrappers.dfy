/** Option and Result, the shapes the controllers' "maybe absent" values and
    thrown errors take in this model. */
module Wrappers {

  datatype Option<+T> = None | Some(value: T)

  /** Ok carries the value an operation produced; Err the error it threw. */
  datatype Result<+T, +E> = Ok(value: T) | Err(error: E) {

    predicate IsFailure() {
      Err?
    }

    function PropagateFailure<U>(): Result<U, E>
      requires Err?
    {
      Err(error)
    }

    function Extract(): T
      requires Ok?
    {
      value
    }
  }
}
