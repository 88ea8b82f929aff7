/** Outcome types for calls into the hosted backend, whose results the model
    takes as inputs instead of performing them. */
module Wrappers {

  datatype Option<+T> = None | Some(value: T)

  /** A backend call that yields a value or an error carrying its message. */
  datatype Outcome<+T> = Ok(value: T) | Err(msg: string)

  /** A backend call whose only result is whether it failed. */
  datatype Status = Done | Failed(msg: string)
}
