/** Small value types shared by the runtime and tool models. */
module Basics {

  /** Swift's `Optional`. */
  datatype Option<+T> = None | Some(value: T)

  /** The result of a call that may throw: a value, or an error identified by an opaque code. */
  datatype Outcome<+V> = Ok(value: V) | Err(error: nat)
}
