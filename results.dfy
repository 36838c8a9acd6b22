/** Option and Result, the two failure-carrying wrappers the model uses for
    Python's `None` results and raised exceptions. */
module Results {

  datatype Option<+T> = None | Some(value: T)

  /** `Err` stands for an exception the Python code raises; `:-` propagates it. */
  datatype Result<+T, +E> = Ok(value: T) | Err(error: E) {

    predicate IsFailure() {
      Err?
    }

    function PropagateFailure<U>(): Result<U, E>
      requires Err?
    {
      Err(error)
    }

    function Extract(): T
      requires Ok?
    {
      value
    }
  }
}
