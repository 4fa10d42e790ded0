/** Small failure-compatible wrappers shared by the modules of this model. */
module Wrappers {

  /** The optional value of the source (`boost::optional`, a nullable pointer). */
  datatype Option<+T> = None | Some(value: T)
}
