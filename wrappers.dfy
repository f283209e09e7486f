/** The optional value used for "no target" and for optional parameters. */
module Wrappers {
  datatype Option<+T> = None | Some(value: T)
}
