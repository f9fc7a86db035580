/** The optional value used across the model in place of a missing Python value. */
module Wrappers {
  datatype Option<+T> = None | Some(value: T)
}
