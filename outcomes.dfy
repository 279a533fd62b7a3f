/** Outcome types shared by every module: an optional value, and the result of
    a computation that the Python program could abort with an exception. */
module Outcomes {

  datatype Option<+T> = None | Some(value: T)

  /** The Python exceptions the modelled code can raise on bad input. */
  datatype Failure =
    | ValueError(message: string)   // float('') or int('abc')
    | KeyError(key: string)         // dict lookup of an absent key
    | TypeError(message: string)    // `+=` of a str onto a number
    | OverflowError(message: string) // a date before 0001-01-01

  datatype Result<+T> = Ok(value: T) | Err(failure: Failure)

  /** The text Python gives `str(e)` for each exception. */
  function FailureText(f: Failure): string
  {
    match f
    case ValueError(m) => m
    case KeyError(k) => "'" + k + "'"
    case TypeError(m) => m
    case OverflowError(m) => m
  }
}
