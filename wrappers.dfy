/** Optional values: TypeScript's `T | null | undefined` fields and results. */
module Wrappers {
  datatype Option<+T> = None | Some(value: T)
}
