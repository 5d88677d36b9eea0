/** Optional values, used where the JavaScript code returns `undefined`, a missing
    field or a non-string input. */
module Wrappers {

  datatype Option<+T> = None | Some(value: T)
}
