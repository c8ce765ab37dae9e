/** Results and the Python exceptions the modelled code raises. */
module Outcomes {

  /** The exception classes raised along the modelled paths. */
  datatype Error =
    | ValueError(msg: string)
    | AssertionError(msg: string)
    | IndexError(msg: string)
    | RuntimeError(msg: string)
    | TypeError(msg: string)
    | ZeroDivisionError(msg: string)
    | KeyError(msg: string)
    | AttributeError(msg: string)

  datatype Option<+T> = None | Some(value: T)

  /** The value a call returns, or the exception it raises. */
  datatype Result<+T> = Ok(value: T) | Err(error: Error) {
    predicate IsFailure() { Err? }

    function PropagateFailure<U>(): Result<U>
      requires Err?
    {
      Err(error)
    }

    function Extract(): T
      requires Ok?
    {
      value
    }
  }
}
