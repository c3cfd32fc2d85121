/** The Some/None datatype used wherever the modelled program returns either a value or `None`. */
module Wrappers {

  datatype Option<+T> = None | Some(value: T)
}
