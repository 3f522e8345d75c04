/** The optional value used across the model for the source's `Option`, and the count of a fact. */
module Wrappers {
  datatype Option<+T> = None | Some(value: T)

  function One(b: bool): nat { if b then 1 else 0 }
}
