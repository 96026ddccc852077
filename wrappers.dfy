/** The optional value the source writes as `T | null`. */
module Wrappers {

  datatype Option<+T> = None | Some(value: T)
}
