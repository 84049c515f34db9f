/** An optional value: the outcome of a remote call that may be lost. */
module Wrappers {

  /** `None` stands for a call whose transport reported failure; `Some(r)` for a delivered reply `r`. */
  datatype Option<+T> = None | Some(value: T)
}
