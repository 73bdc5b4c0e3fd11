/** Small failure-compatible wrapper shared by the modules of this project. */
module Wrappers {

  /** A value that may be absent: an account that has not been created, a
      checked arithmetic result that overflowed, a missing field of a
      decoded record. */
  datatype Option<+T> = None | Some(value: T)
}
