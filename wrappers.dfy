/** Failure-carrying wrappers shared by every module of the model. */
module Wrappers {

  /** A value that may be absent; Python's `None` where a character is expected. */
  datatype Option<T> = None | Some(value: T)

  /** The outcome of an operation that returns a value or raises an exception. */
  datatype Result<T, E> = Ok(value: T) | Err(error: E) {
    predicate IsFailure() { Err? }

    function PropagateFailure<U>(): Result<U, E>
      requires Err?
    {
      Err(error)
    }

    function Extract(): T
      requires Ok?
    {
      value
    }
  }

  /** The outcome of an operation that returns nothing or raises an exception. */
  datatype Status<E> = Done | Failed(error: E)
}
