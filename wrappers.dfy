/** A value that may be missing: a property a JavaScript object does not (yet) have. */
module Wrappers {

  datatype Option<T> = None | Some(value: T)
}
