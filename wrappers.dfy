/** The optional value used wherever the bot reads something that may be absent:
    an unset environment variable, a channel that is not found, a member fetch
    that failed, or JavaScript's `undefined` from indexing past an array's end. */
module Wrappers {

  datatype Option<+T> = None | Some(value: T)
}
