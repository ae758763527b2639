/** Option and Result: the nullable values and the thrown error of the source. */
module Wrappers {

  /** A value that may be absent (`null` or `undefined` in the source). */
  datatype Option<+T> = None | Some(value: T)

  /** Either a value or the message of an error the source throws. */
  datatype Result<+T> = Success(value: T) | Failure(error: string)
}
