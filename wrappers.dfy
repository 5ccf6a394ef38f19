/** Option and Result values, and the Python exceptions the modelled code can raise. */
module Wrappers {

  datatype Option<+T> = None | Some(value: T) {
    function GetOr(default: T): T {
      match this
      case Some(v) => v
      case None => default
    }
  }

  /** The exceptions that escape a modelled operation (they are not caught by the source). */
  datatype PyError =
    | ValueError(msg: string)
    | ZeroDivisionError
    | IndexError
    | TypeError
    | AttributeError
      /** A bare `Exception(msg)`. */
    | Exception(msg: string)

  /** The result of a Python call that either returns a value or raises. */
  datatype Result<+T> = Ok(value: T) | Err(error: PyError)
}
