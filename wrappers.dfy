/** The optional value used for a JavaScript property read that may come back `undefined`. */
module Wrappers {

  datatype Option<+T> = None | Some(value: T)
}
