/** Optional values: a successful outcome carries a value, a failed one carries nothing. */
module Wrappers {
  datatype Option<+T> = None | Some(value: T)
}
