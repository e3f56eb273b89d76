/** The optional value used for answers that may be absent (JavaScript `undefined`). */
module Wrappers {

  datatype Option<+T> = None | Some(value: T)
}
