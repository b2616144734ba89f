/** The optional value used for the fields the source stores as `None` or a value. */
module Wrappers {
  datatype Option<+T> = None | Some(value: T)
}
