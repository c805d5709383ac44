/** Optional values, used where `DLNARendererService` has `null` for "absent". */
module Wrappers {
  datatype Option<T> = None | Some(value: T)
}
