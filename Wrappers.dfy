/** Optional values: a JavaScript `undefined` or missing storage entry is `None`. */
module Wrappers {
  datatype Option<+T> = None | Some(value: T)
}
