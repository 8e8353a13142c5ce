/** Failure-compatible wrappers used throughout the model: `Option` stands for
    a Python attribute that may hold `None`, `Result` for a computation that may
    raise. Both work with Dafny's `:-` operator. */
module Results {

  datatype Option<+T> = None | Some(value: T)

  datatype Result<+T, +E> = Ok(value: T) | Err(error: E) {

    predicate IsFailure() {
      Err?
    }

    function PropagateFailure<U>(): Result<U, E>
      requires Err?
    {
      Err(error)
    }

    function Extract(): T
      requires Ok?
    {
      value
    }
  }
}
