/** Optional values: a texture or vertex buffer that may be absent. */
module Wrappers {
  datatype Option<+T> = None | Some(value: T)
}
