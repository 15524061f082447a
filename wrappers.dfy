/** Optional values, used where the interpreter has no defined outcome. */
module Wrappers {

  datatype Option<+T> = None | Some(value: T)
}
