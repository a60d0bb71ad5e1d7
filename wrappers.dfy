/** Optional values: a TypeScript property declared `name?: T` is either absent or present. */
module Wrappers {

  datatype Option<+T> = None | Some(value: T)
}
