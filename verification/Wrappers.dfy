/** Failure-compatible results and optional values shared by every module. */
module Wrappers {

  datatype Option<+T> = None | Some(value: T)

  /** The source's exceptions, as values. */
  datatype Result<+T, +E> = Ok(value: T) | Err(error: E)
  {
    predicate IsFailure() {
      Err?
    }

    function PropagateFailure<U>(): Result<U, E>
      requires Err?
    {
      Err(error)
    }

    function Extract(): T
      requires Ok?
    {
      value
    }
  }
}
