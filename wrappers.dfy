/** Failure-carrying wrappers: `Option` for JavaScript's `undefined` results and
    `Result` for operations that throw. */
module Wrappers {

  /** `None` stands for a lookup that yields `undefined`. */
  datatype Option<+T> = None | Some(value: T)

  /** `Err` stands for an operation that throws instead of returning. */
  datatype Result<+T, +E> = Ok(value: T) | Err(error: E)
}
