/** The exceptions the library throws, as values. */
module Errors {

  /** IndexOutOfBoundsException (including ArrayIndexOutOfBoundsException) and IllegalArgumentException. */
  datatype Error = IndexOutOfBounds | IllegalArgument

  /** The outcome of a void method: it returned normally, or it threw. */
  datatype Outcome = Pass | Fail(error: Error)

  /** The outcome of a method that returns a value. */
  datatype Result<+T> = Ok(value: T) | Err(error: Error)

  /** A reference that may be null. */
  datatype Option<+T> = None | Some(value: T)
}
