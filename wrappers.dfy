/** Optional values, used wherever the Rust code returns an `Option`. */
module Wrappers {
  datatype Option<T> = None | Some(value: T)
}
