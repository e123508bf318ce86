/** An optional value shared by the model. */
module Wrappers {

  /** A present-or-absent value: JavaScript's `null`/`undefined` become None. */
  datatype Option<+T> = None | Some(value: T)
}
