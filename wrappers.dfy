/** Optional values: `None` stands for Java's `null` or for a parse that throws. */
module Wrappers {
  datatype Option<+T> = None | Some(value: T)
}
