/** Python's `None`-or-value, as used for the tri-state `server_was_online`
    and for the player counts of an unreachable server. */
module Wrappers {

  datatype Option<+T> = None | Some(value: T)
}
