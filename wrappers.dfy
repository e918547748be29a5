/** The optional value used wherever the source returns None or may raise. */
module Wrappers {
  datatype Option<+T> = None | Some(value: T)
}
