/** Option and result types shared by the pattern modules. An exception thrown by
    the original code becomes an error value here. */
module Wrappers {

  /** A value that may be absent: C#'s `null`. */
  datatype Option<+T> = None | Some(value: T)

  /** A computed value, or the exception raised instead. */
  datatype Result<+T, +E> = Ok(value: T) | Err(error: E)

  /** Success of an operation that returns nothing, or the exception raised instead. */
  datatype Outcome<+E> = Pass | Fail(error: E)
}
