/** The optional value used for quantities that may still be unset (`null`). */
module Wrappers {

  datatype Option<+T> = None | Some(value: T)
}
