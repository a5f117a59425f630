/** What the other modules share about values that may be missing. */
module Wrappers {

  datatype Option<+T> = None | Some(value: T)
}
