/** Optional values: Go's nil pointer and nil error. */
module Wrappers {

  datatype Option<+T> = None | Some(value: T)
}
