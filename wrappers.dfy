/** Small value wrappers shared by the modules of this model. */
module Wrappers {

  /** A value that may be missing: `LastOrDefault` on an empty array, a failed parse. */
  datatype Option<+T> = None | Some(value: T)
}
