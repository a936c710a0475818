/** Python's exceptions and optional values, as the rest of the model returns them. */
module Outcomes {

  /** The exception classes the modelled code raises, catches or lets through. */
  datatype Exn =
    | ValueError
    | AssertionError
    | TypeError
    | IndexError
    | FileNotFoundError
    | OSError
    | AttributeError
    | ZeroDivisionError

  /** The result of a Python call: a value, or the exception it raised. */
  datatype Outcome<T> = Ok(value: T) | Raised(exn: Exn)

  datatype Option<T> = None | Some(value: T)
}
