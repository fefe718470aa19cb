/** Option and Result types, and the Python exceptions the modelled code raises. */
module Wrappers {

  datatype Option<+T> = None | Some(value: T) {
    function GetOr(default: T): T {
      match this
      case Some(v) => v
      case None => default
    }
  }

  /** The exception classes the core raises or catches. */
  datatype PyError =
    | RuntimeError(message: string)
    | ValueError(message: string)
    | TypeError(message: string)
    | ZeroDivisionError(message: string)

  /** A value, or the exception a Python call raised instead. */
  datatype Result<+T> = Ok(value: T) | Err(error: PyError)

  /** A call that returns nothing (`None`) or raises. */
  datatype Outcome = Pass | Fail(error: PyError)
}
