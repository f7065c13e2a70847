/**
  The failures the chess kernel raises (the exception classes of wuki/errors.py and
  wuki/exceptions.py, plus the Python built-in exceptions its code runs into), and the
  failure-compatible wrappers every fallible operation of the model returns.
 */
module Errors {

  datatype Option<+T> = None | Some(value: T)

  /** One kind of failure. The built-in Python exceptions carry no payload here. */
  datatype Error =
    | ValueError
    | TypeError
    | IndexError
    | KeyError
    | AttributeError
    | UnboundLocalError
    | IllegalMove
    | MoveParse(reason: string, move: string)
    | AmbiguousMove(reason: string, move: string)
    | WrongPlayer

  datatype Result<+T> = Ok(value: T) | Err(error: Error) {
    predicate IsFailure() { Err? }

    function PropagateFailure<U>(): Result<U>
      requires Err?
    {
      Err(error)
    }

    function Extract(): T
      requires Ok?
    {
      value
    }
  }

  /** The outcome of an operation that changes state and returns nothing. */
  datatype Outcome = Done | Failed(error: Error)
}
