/** A value that may be missing (a JavaScript `null` or `undefined`). */
module Wrappers {

  datatype Option<+T> = None | Some(value: T)
}
