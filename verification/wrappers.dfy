/** Optional values: the model's stand-in for Go's `(value, err)` pairs and decode failures. */
module Wrappers {

  datatype Option<+T> = None | Some(value: T)
}
