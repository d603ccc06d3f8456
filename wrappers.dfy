/** Optional values: `None` stands for Java's `null`. */
module Wrappers {

  datatype Option<T> = None | Some(value: T)
}
