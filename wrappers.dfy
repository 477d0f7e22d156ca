/** Optional values: a JavaScript `null`/`undefined` or a missing key becomes `None`. */
module Wrappers {

  datatype Option<+T> = None | Some(value: T)
}
