/** Optional values: the source's `null` and the absent store key. */
module Wrappers {

  datatype Option<+T> = None | Some(value: T)
}
