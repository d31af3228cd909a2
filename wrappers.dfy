/** Option and Result, the value-level stand-ins for Python's `None` and for raised exceptions. */
module Wrappers {

  datatype Option<+T> = None | Some(value: T)

  /** `Ok(value)` where the Python code returns, `Err(error)` where it raises. */
  datatype Result<+T, +E> = Ok(value: T) | Err(error: E) {

    predicate IsFailure() {
      Err?
    }

    function PropagateFailure<U>(): Result<U, E>
      requires Err?
    {
      Err(error)
    }

    function Extract(): T
      requires Ok?
    {
      value
    }
  }

  /** A check that either passes or fails with an error (a Python function returning None or raising). */
  datatype Outcome<+E> = Pass | Fail(error: E)
}
