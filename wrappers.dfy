/** The optional value used wherever the game engine may find nothing. */
module Wrappers {
  datatype Option<+T> = None | Some(value: T)
}
