/** The optional value shared by the game engine and the random mover. */
module Wrappers {

  /** `None` stands for "no value"; `Some(v)` carries one. */
  datatype Option<+T> = None | Some(value: T)
}
