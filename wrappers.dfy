/** Small wrapper datatypes shared by the modules of this project. */
module Wrappers {

  /** A value that may be absent; stands for JavaScript's `null`/`undefined`. */
  datatype Option<+T> = None | Some(value: T)
}
