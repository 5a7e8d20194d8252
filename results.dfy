/** Failure-compatible wrappers shared by the three solvers. */
module Results {

  /** A value that may be absent: a JavaScript `null`, or a library call that threw. */
  datatype Option<+T> = None | Some(value: T)

  /** The outcome of a solve: a value, or the error that a `throw` would carry. */
  datatype Result<+T, +E> = Ok(value: T) | Err(error: E) {

    predicate IsFailure() {
      Err?
    }

    function PropagateFailure<U>(): Result<U, E>
      requires Err?
    {
      Err(error)
    }

    function Extract(): T
      requires Ok?
    {
      value
    }
  }
}
