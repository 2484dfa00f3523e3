/** Failure-compatible wrappers used throughout the model: `Option` stands for a Go
    pointer or interface that may be nil, `Result` for a Go `(value, error)` pair
    in which exactly one side is meaningful. */
module Results {

  datatype Option<+T> = None | Some(value: T)

  datatype Result<+T, +E> = Ok(value: T) | Err(error: E) {

    predicate IsFailure() {
      Err?
    }

    function PropagateFailure<U>(): Result<U, E>
      requires Err?
    {
      Err(error)
    }

    function Extract(): T
      requires Ok?
    {
      value
    }
  }
}
