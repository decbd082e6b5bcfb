/** Option and Result types used throughout the model. A C# reference that may be null
    is an Option; an operation that may throw is a Result whose failure names the
    exception the source would raise. */
module Wrappers {

  datatype Option<+T> = None | Some(value: T)

  /** The exceptions the modelled code can raise, by their .NET type. */
  datatype Exception =
    | UnsupportedFormatException
    | NullReferenceException
    | InvalidOperationException
    | ArgumentOutOfRangeException
    | ArgumentNullException
    | NotSupportedException
    | TypeConverterException
    | ReaderException

  datatype Result<+T> = Returned(value: T) | Thrown(error: Exception)
}
