/** Optional values: `None` stands for a C# `null` or for a parse that did not succeed. */
module Wrappers {
  datatype Option<+T> = None | Some(value: T)
}
