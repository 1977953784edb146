/** Failure-carrying values used across the model: an optional value and a
    result that is either a value or the error the source raises. */
module Wrappers {

  datatype Option<+T> = None | Some(value: T)

  /** Either a value or an error; usable with `:-`, which passes an error on. */
  datatype Result<+T, +E> = Ok(value: T) | Err(error: E) {

    predicate IsFailure() {
      Err?
    }

    function PropagateFailure<U>(): Result<U, E>
      requires Err?
    {
      Err(error)
    }

    function Extract(): T
      requires Ok?
    {
      value
    }
  }
}
