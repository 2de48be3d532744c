/** Results of operations that throw in the original code: the exception becomes a failure value
    that carries the exception's message. */
module Outcomes {

  /** The outcome of an operation that either completes or throws. */
  datatype Outcome = Pass | Fail(message: string)

  /** The outcome of an operation that either returns a value or throws. */
  datatype Result<+T> = Ok(value: T) | Err(message: string)

  /** An optional value, where the original code uses null. */
  datatype Option<+T> = None | Some(value: T)
}
