/** The optional-value datatype shared by the other modules. */
module Wrappers {

  /** `None` stands for JavaScript's `undefined` where the source looks a value up. */
  datatype Option<+T> = None | Some(value: T)
}
