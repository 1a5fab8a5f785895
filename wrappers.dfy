/** Optional values: a null shared_ptr, a null pointer, an unset reference. */
module Wrappers {

  datatype Option<+T> = None | Some(value: T)
}
