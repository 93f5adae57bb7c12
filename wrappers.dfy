/** The optional value used wherever the components hold `T | null`. */
module Wrappers {
  datatype Option<+T> = None | Some(value: T)
}
