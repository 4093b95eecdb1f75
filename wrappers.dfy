/** The optional-value wrapper used for the slots of a shifted series. */
module Wrappers {

  /** `None` is a slot that was never assigned (a hole in a JavaScript array). */
  datatype Option<+T> = None | Some(value: T)
}
