/** The optional value used for a player's pending bet (Python's `None` or a bet dict). */
module Wrappers {
  datatype Option<+T> = None | Some(value: T)
}
