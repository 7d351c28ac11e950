/** The optional value used for every nullable column of a production record. */
module Wrappers {

  datatype Option<+T> = None | Some(value: T)

}
