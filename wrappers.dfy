/** Optional values, used for JavaScript's "absent" (a missing property, a
    value `JSON.stringify` drops). */
module Wrappers {

  datatype Option<+T> = None | Some(value: T)
}
