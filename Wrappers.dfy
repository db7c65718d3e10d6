/** Optional values: a vacant seat, a rejected engine move, a piece-less square. */
module Wrappers {
  datatype Option<+T> = None | Some(value: T)
}
