/** The usual optional-value datatype, used for item data that may be absent. */
module Wrappers {
  datatype Option<+T> = None | Some(value: T)
}
