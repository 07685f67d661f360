/** An optional value, for what the program represents by `None`. */
module Wrappers {

  datatype Option<+T> = None | Some(value: T)
}
