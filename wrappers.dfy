/** The optional value used wherever the game's Python code can raise or return nothing. */
module Wrappers {

  datatype Option<+T> = None | Some(value: T)

}
