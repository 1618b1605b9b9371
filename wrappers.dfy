/** The optional value shared by the tile model and the timing-table model. */
module Wrappers {

  datatype Option<T> = None | Some(value: T)
}
