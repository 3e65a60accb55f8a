/** Optional values: Go's nil pointers, nil maps and nil interfaces. */
module Wrappers {

  datatype Option<+T> = None | Some(value: T)
}
