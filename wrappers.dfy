/** Option, Result and the .NET exceptions the modelled code raises or lets escape. */
module Wrappers {
  datatype Option<+T> = None | Some(value: T)

  /** The exception kinds that leave the modelled operations, with the payload the source attaches. */
  datatype Exception =
    | ArgumentException(message: string)
    | ArgumentNullException(paramName: string)
    | KeyNotFoundException(key: string)
    | InvalidOperationException(message: string)
    | IndexOutOfRangeException
    | ArgumentOutOfRangeException
    | NullReferenceException
    | DuplicateNameException(name: string)
    | InvalidCastException
    /** An exception raised by a collaborator the model treats as an oracle (a delegate, the database). */
    | ExternalException(message: string)

  datatype Result<+T> = Success(value: T) | Failure(error: Exception)
}
