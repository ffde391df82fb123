/** Failure-carrying and dynamically-typed wrappers shared by every module. */
module Wrappers {

  /** Python's `None` or a present value. */
  datatype Option<+T> = None | Some(value: T)

  /** The outcome of an operation that either returns a value or raises an exception. */
  datatype Result<+T, +E> = Ok(value: T) | Err(error: E) {
    predicate IsFailure() {
      Err?
    }

    function PropagateFailure<U>(): Result<U, E>
      requires Err?
    {
      Err(error)
    }

    function Extract(): T
      requires Ok?
    {
      value
    }
  }

  /** An argument whose dynamic type the source checks with `isinstance`:
      `None`, a value of the expected type, or an object of any other type. */
  datatype Dyn<+T> = Null | Is(val: T) | Other

  /** A point in time (a `datetime`), abstracted to a number ordered like it. */
  type Instante = int
}
