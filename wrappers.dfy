/** Optional values, used where the source has a DOM lookup or an engine
    answer that may be missing (`null` / `undefined`). */
module Wrappers {

  datatype Option<+T> = None | Some(value: T)
}
