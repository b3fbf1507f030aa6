/** Option and Result, for Kotlin's nullable values and thrown exceptions. */
module Wrappers {

  /** A Kotlin `T?`: `None` stands for `null`. */
  datatype Option<+T> = None | Some(value: T)

  /** The outcome of a call that either returns a value or throws with a message. */
  datatype Result<+T> = Ok(value: T) | Err(error: string)
}
