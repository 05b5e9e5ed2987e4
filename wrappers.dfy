/** Optional values, for the steps of the pipeline that can fail. */
module Wrappers {

  datatype Option<+T> = None | Some(value: T)
}
