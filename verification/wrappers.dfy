/** Values shared by the model: `byte`, `Option` for the source's nullable
    references and `Result` for calls that either return a value or throw
    one of the .NET exceptions the client raises. */
module Wrappers {

  /** A .NET `byte`. */
  type byte = b: int | 0 <= b < 256

  /** A nullable reference: `None` stands for C# `null`. */
  datatype Option<+T> = None | Some(value: T)

  /** The exceptions the modelled code throws itself. */
  datatype Exception =
    | ArgumentException(message: string)
    | NotImplementedException

  /** Either the returned value or the exception that was thrown. */
  datatype Result<+T> = Ok(value: T) | Err(error: Exception)
}
