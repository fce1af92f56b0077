/** The one failure-free wrapper the other modules share. */
module Wrappers {
  /** A value that may be missing: a nil pointer, an absent key, an early exit. */
  datatype Option<+T> = None | Some(value: T)
}
