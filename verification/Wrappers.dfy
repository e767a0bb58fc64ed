/** Failure-compatible datatypes shared by the model. An HTTP error of the backend is an
    `Err`; the transaction it aborts leaves the state it started from. */
module Wrappers {
  /** The id of a row. Ids are random strings in the database; only their equality is ever used. */
  type Id = int

  datatype Option<+T> = None | Some(value: T)

  datatype Result<+T, +E> = Ok(value: T) | Err(error: E) {
    predicate IsFailure() {
      Err?
    }

    function PropagateFailure<U>(): Result<U, E>
      requires Err?
    {
      Err(error)
    }

    function Extract(): T
      requires Ok?
    {
      value
    }
  }
}
