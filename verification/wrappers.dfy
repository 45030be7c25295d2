/** An optional value, shared by the model. */
module Wrappers {

  /** An optional value (the source's `null` when missing). */
  datatype Option<+T> = None | Some(value: T)
}
