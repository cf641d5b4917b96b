/** The nullable values of the source (`null`, a missing map slot, a failed lookup). */
module Wrappers {

  datatype Option<+T> = None | Some(value: T)
}
