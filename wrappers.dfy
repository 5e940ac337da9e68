/** Optional values, for the nullable view size and for a search that may find nothing. */
module Wrappers {
  datatype Option<+T> = None | Some(value: T)
}
