/** Option and Result, and the Python exceptions the modelled code raises or reports. */
module Wrappers {

  datatype Option<T> = None | Some(value: T)

  /** The exceptions the scripts raise, catch or record, with the message they carry. */
  datatype PyError =
    | KeyError(message: string)
    | ValueError(message: string)
    | TypeError
    | AttributeError
    /** `RuntimeError(f"...: {str(e)}")`: a wrapper around the exception that caused it. */
    | RuntimeError(cause: PyError)
    | NoMaps
    /** A bare `Exception(message)`. */
    | Exception(message: string)

  datatype Result<T> = Ok(value: T) | Err(error: PyError)
  {
    predicate IsFailure() { Err? }

    function PropagateFailure<U>(): Result<U>
      requires Err?
    {
      Err(error)
    }

    function Extract(): T
      requires Ok?
    {
      value
    }
  }
}
