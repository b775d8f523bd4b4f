/** Option and Result values used wherever the source returns `null`,
    `undefined` or throws. */
module Wrappers {

  datatype Option<+T> = None | Some(value: T)

  /** The outcome of an operation that either produces a value or fails
      with a classified error (a thrown error or a rejected promise). */
  datatype Result<+T, +E> = Ok(value: T) | Err(error: E)
}
