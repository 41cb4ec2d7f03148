/** Option and Result, the failure-compatible wrappers used by every module of the model. */
module Wrappers {

  datatype Option<T> = None | Some(value: T)

  /** Ok carries a value; Err carries the reason the source would raise an exception. */
  datatype Result<T, E> = Ok(value: T) | Err(error: E) {
    predicate IsFailure() { Err? }

    function PropagateFailure<U>(): Result<U, E>
      requires Err?
    {
      Err(error)
    }

    function Extract(): T
      requires Ok?
    {
      value
    }
  }
}
