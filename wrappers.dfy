/** Optional values, standing in for the nullable pointers of the C headers. */
module Wrappers {

  /** `None` plays the role of a NULL pointer, `Some(v)` of a pointer to `v`. */
  datatype Option<T> = None | Some(value: T)
}
