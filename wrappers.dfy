/** Optional values: Go's nil-able references and `(value, ok)` lookups. */
module Wrappers {
  datatype Option<+T> = None | Some(value: T)
}
