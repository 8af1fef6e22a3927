/** Option and Result types used throughout the model, and the exceptions
    the modelled Python code lets escape to its caller. */
module Wrappers {

  datatype Option<+T> = None | Some(value: T)

  /** The Python exception classes raised along the modelled paths. */
  datatype Error =
    | ValueError(msg: string)
    | KeyError(key: string)
    | IndexError
    | TypeError
    | AttributeError
    | FileNotFoundError(path: string)
    /** pydantic refusing a parameter record whose shape is wrong */
    | ValidationError

  /** An operation that either returns a value or raises an `Error`. */
  datatype Result<+T> = Ok(value: T) | Err(error: Error) {

    predicate IsFailure() {
      Err?
    }

    function PropagateFailure<U>(): Result<U>
      requires Err?
    {
      Err(error)
    }

    function Extract(): T
      requires Ok?
    {
      value
    }
  }
}
