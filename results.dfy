/** Option and Result values used for the nullable fields of a document and
    for the failures (exceptions) of the modelled Python code. */
module Results {

  datatype Option<+T> = None | Some(value: T)

  /** Ok carries a value; Err carries the exception the Python code would raise.
      Failure-compatible, so `:-` propagates the first error. */
  datatype Result<+T, +E> = Ok(value: T) | Err(error: E) {

    predicate IsFailure() {
      Err?
    }

    function PropagateFailure<U>(): Result<U, E>
      requires Err?
    {
      Err(error)
    }

    function Extract(): T
      requires Ok?
    {
      value
    }
  }
}
