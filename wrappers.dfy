/** Small helper datatype shared by every module: JavaScript's `null` versus a value. */
module Wrappers {
  datatype Option<+T> = None | Some(value: T)
}
