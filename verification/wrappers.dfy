/** Optional values, used wherever the stored documents hold a nullable field. */
module Wrappers {

  datatype Option<+T> = None | Some(value: T)
}
