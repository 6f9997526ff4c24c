/** Small option type shared by the two interpreters. */
module Basics {
  datatype Option<+T> = None | Some(value: T)
}
