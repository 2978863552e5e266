/** The optional value used where the source passes `None`. */
module Opt {
  datatype Option<+T> = None | Some(value: T)
}
