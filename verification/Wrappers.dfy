/** The failure wrapper shared by the models. */
module Wrappers {

  /** A value that may be missing: a lookup that fails, a NULL pointer. */
  datatype Option<+T> = None | Some(value: T)
}
