/** The optional value used wherever the game code has `null` or a missing field. */
module Wrappers {
  datatype Option<+T> = None | Some(value: T)
}
