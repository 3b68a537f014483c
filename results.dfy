/** Failure-compatible results: the exceptions the grid builder can raise. */
module Results {

  /** The ways building a grid fails. */
  datatype Error =
    | EmptyColorTable   // `max()` over an empty threshold table raises ValueError
    | DivisionByZero    // a division by a zero column count, bar total or grading size
    | NegativeSize      // the imaging library refuses an image with a negative width

  datatype Option<+T> = None | Some(value: T)

  datatype Result<+T> = Ok(value: T) | Err(error: Error) {
    predicate IsFailure() { Err? }

    function PropagateFailure<U>(): Result<U>
      requires Err?
    {
      Err(error)
    }

    function Extract(): T
      requires Ok?
    {
      value
    }
  }
}
