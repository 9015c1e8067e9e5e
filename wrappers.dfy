/** A value that JavaScript would hold as `null`/`undefined` or as something. */
module Wrappers {

  datatype Option<+T> = None | Some(value: T)
}
