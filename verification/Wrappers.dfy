/** The two result types every component uses. */
module Wrappers {

  datatype Option<+T> = None | Some(value: T)

  /** A value, or the exception the source raises instead of returning one. */
  datatype Result<+T, +E> = Ok(value: T) | Err(error: E) {
    predicate IsFailure() {
      Err?
    }

    function PropagateFailure<U>(): Result<U, E>
      requires Err?
    {
      Err(error)
    }

    function Extract(): T
      requires Ok?
    {
      value
    }
  }
}
