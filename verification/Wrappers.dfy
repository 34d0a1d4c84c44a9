/** Optional values: a JSON key or a file that may be absent, a step that may fail. */
module Wrappers {

  datatype Option<+T> = None | Some(value: T)
}
