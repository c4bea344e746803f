/** A value that may be missing: what the game's optional pointers and comma-ok results become. */
module Wrappers {

  datatype Option<+T> = None | Some(value: T)
}
