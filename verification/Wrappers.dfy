/** Optional values, used where the source has a nullable pointer or an optional result. */
module Wrappers {

  datatype Option<+T> = None | Some(value: T)
}
