/** Success/failure values that stand for the Python exceptions of the modelled code. */
module Results {

  /** A computed value, or the error the source raises instead. */
  datatype Result<+T, +E> = Success(value: T) | Failure(error: E) {
    predicate IsFailure() { Failure? }

    function PropagateFailure<U>(): Result<U, E>
      requires Failure?
    {
      Failure(error)
    }

    function Extract(): T
      requires Success?
    {
      value
    }
  }

  /** A value that may be absent (Python's None). */
  datatype Option<+T> = None | Some(value: T)

  /** A check that either passes silently or raises. */
  datatype Outcome<+E> = Pass | Fail(error: E)

  /** The exception classes the modelled code raises or lets callers choose. */
  datatype ErrorType =
    | ValueError
    | RuntimeError
    | AttributeError
    | IndexError
    | KeyError
    | TypeError
    | Custom(name: string)
}
