/** Outcomes of the modelled Python code: a value, or the exception it raises. */
module Results {

  datatype Exn = AssertionError | KeyError | IndexError | ShapeError | TypeError | ZeroDivisionError

  datatype Result<+T> = Ok(value: T) | Raise(error: Exn) {
    predicate IsFailure() { Raise? }

    function PropagateFailure<U>(): Result<U>
      requires Raise?
    {
      Raise(error)
    }

    function Extract(): T
      requires Ok?
    {
      value
    }
  }

  datatype Option<+T> = None | Some(value: T) {
    function Or(d: T): T { if Some? then value else d }
  }
}
