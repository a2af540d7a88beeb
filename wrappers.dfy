/** Option, shared by every other module. */
module Wrappers {

  /** A value that may be absent (a null pointer, a failed stod, a missing key). */
  datatype Option<+T> = None | Some(value: T)
}
