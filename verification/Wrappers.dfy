/** The optional value used by every component: the source's `None` or a value. */
module Wrappers {
  datatype Option<+T> = None | Some(value: T)
}
