/** Option, used for values that may be missing and for operations that may raise. */
module Wrappers {
  datatype Option<+T> = None | Some(value: T)
}
