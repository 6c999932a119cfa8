/** Small helper datatypes shared by the modules of this model. */
module Wrappers {

  /** A value that may be missing; in the store it stands for a Go pointer that may be nil. */
  datatype Option<T> = None | Some(value: T)
}
