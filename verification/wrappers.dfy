/** The optional value that stands for a possibly-null entity reference. */
module Wrappers {
  datatype Option<+T> = None | Some(value: T)
}
