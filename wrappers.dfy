/** The optional value used wherever the source has `undefined`, a missing key or a failed `find`. */
module Wrappers {

  datatype Option<+T> = None | Some(value: T)
}
