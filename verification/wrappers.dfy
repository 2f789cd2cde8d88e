/** Optional values: the model's stand-in for "exists or not" and for Go's (value, error) pairs. */
module Wrappers {
  datatype Option<+T> = None | Some(value: T)
}
