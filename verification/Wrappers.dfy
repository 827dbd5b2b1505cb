/** The optional-value datatype used across the model. */
module Wrappers {

  /** A value that may be absent: a null C pointer, or nothing received yet. */
  datatype Option<+T> = None | Some(value: T)
}
