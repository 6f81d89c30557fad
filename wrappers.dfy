/** An optional value: `None`, or `Some(value)`. */
module Wrappers {
  datatype Option<+T> = None | Some(value: T)
}
