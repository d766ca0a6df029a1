/** Option and Result values, used where the Kotlin code has a nullable value or throws. */
module Wrappers {
  datatype Option<+T> = None | Some(value: T)

  /** The outcome of a Kotlin constructor call: the new object, or the message of the exception it threw. */
  datatype Result<+T, +E> = Ok(value: T) | Err(error: E)
}
