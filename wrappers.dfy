/** The optional value used for the source's `T | null` results and nullable refs. */
module Wrappers {

  datatype Option<+T> = None | Some(value: T)
}
