/** Option and Result: the explicit form of the exceptions the bot raises and catches. */
module Wrappers {

  datatype Option<+T> = None | Some(value: T)

  /** The outcome of a step that either returns a value or raises an error. */
  datatype Result<+T, +E> = Success(value: T) | Failure(error: E)
}
