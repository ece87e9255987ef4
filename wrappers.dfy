/** Option and Result, and the exceptions the modelled code can raise. */
module Wrappers {

  /** A value that may be absent: the model of a C# reference that may be null. */
  datatype Option<+T> = None | Some(value: T) {
    function GetOr(default: T): T {
      match this
      case Some(v) => v
      case None => default
    }
  }

  /** The .NET exceptions that the modelled code throws (or lets escape). */
  datatype Exception =
    | ArgumentException(message: string)
    | ArgumentOutOfRange
    | IndexOutOfRange(index: int)
    | KeyNotFound(detail: string)  // the missing key, or the message of an explicit throw
    | FormatError
    | OperationCanceled(message: string)
    | NullReference
    | InvalidOperation(message: string)

  /** The outcome of an operation that either returns a value or throws. */
  datatype Result<+T> = Ok(value: T) | Err(error: Exception)
}
