/** Optional values, used wherever the JavaScript source has `undefined`, `null`
    or an operation that can throw. */
module Wrappers {

  datatype Option<+T> = None | Some(value: T)

}
