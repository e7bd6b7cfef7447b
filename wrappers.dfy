/** The Some/None datatype the loader uses for a file that may fail to open. */
module Wrappers {
  datatype Option<T> = None | Some(value: T)
}
