/** Optional values: a TypeScript parameter or property declared with `?` or given a default. */
module Wrappers {

  datatype Option<+T> = None | Some(value: T)

}
