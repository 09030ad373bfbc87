/** The optional value used for PHP's nullable fields and for keys that may be absent. */
module Wrappers {

  datatype Option<+T> = None | Some(value: T)
}
