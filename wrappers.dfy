/** An optional value shared by the other modules. */
module Wrappers {

  /** A value that may be absent (a missing record key, an unset request field). */
  datatype Option<+T> = None | Some(value: T)
}
