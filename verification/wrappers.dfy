/** Optional values, standing in for the nullable pointers (shared pointers,
    raw pointers) that the adapter layer returns. */
module Wrappers {

  /** `None` plays the role of a null pointer. */
  datatype Option<+T> = None | Some(value: T)
}
