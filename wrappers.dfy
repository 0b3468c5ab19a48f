/** Optional values; `None` stands for a NULL pointer or a failed lookup. */
module Wrappers {
  datatype Option<+T> = None | Some(value: T)
}
