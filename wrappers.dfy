/** Option and Result: absent values (JavaScript `null`) and operations that can throw. */
module Wrappers {

  /** `None` stands for `null` (or `undefined`) where the source allows a missing value. */
  datatype Option<+T> = None | Some(value: T)

  /** The outcome of an operation that either returns a value or throws an error. */
  datatype Result<+T, +E> = Ok(value: T) | Err(error: E)
}
