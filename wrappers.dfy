/** The optional value used for Python's `None`-able fields and for results that can fail. */
module Wrappers {

  datatype Option<+T> = None | Some(value: T)
}
