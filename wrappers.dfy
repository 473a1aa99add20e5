/** Option and Result types, and the Python exceptions the modelled code raises. */
module Wrappers {

  datatype Option<+T> = None | Some(value: T)

  /** The exception classes raised by the modelled functions; `msg` is the text passed to the constructor. */
  datatype PyError =
    | TypeError(msg: string)
    | ValueError(msg: string)
    | ZeroDivisionError
    | IndexError
    | UnboundLocalError(name: string)

  /** Either a value or the exception a Python call would raise instead. */
  datatype Result<+T> = Ok(value: T) | Err(error: PyError) {

    predicate IsFailure() {
      Err?
    }

    function PropagateFailure<U>(): Result<U>
      requires Err?
    {
      Err(error)
    }

    function Extract(): T
      requires Ok?
    {
      value
    }
  }
}
