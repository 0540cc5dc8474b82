/** Optional values: `null` / `undefined` in the modelled TypeScript. */
module Wrappers {
  datatype Option<+T> = None | Some(value: T)
}
