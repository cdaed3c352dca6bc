/** Option and Read, shared by every module. */
module Wrappers {

  /** A value that may be absent: JavaScript's `null`/`undefined` at a call site. */
  datatype Option<+T> = None | Some(value: T)

  /** The outcome of an awaited call that may throw: its value, or the thrown error's message. */
  datatype Read<+T> = Value(value: T) | Threw(message: string)
}
