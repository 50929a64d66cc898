/** Optional values: the model's stand-in for Go's "value or nil" and for
    results that may be missing. */
module Wrappers {

  datatype Option<+T> = None | Some(value: T)
}
