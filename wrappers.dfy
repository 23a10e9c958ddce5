/** The optional-value wrapper shared by every module of the model. */
module Wrappers {

  /** `None` stands for JavaScript's `undefined` (an absent field, or a call that threw). */
  datatype Option<+T> = None | Some(value: T)
}
