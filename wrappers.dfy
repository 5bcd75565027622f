/** The answer of a table read: `null` when the store returned no data. */
module Wrappers {

  datatype Option<+T> = None | Some(value: T)
}
