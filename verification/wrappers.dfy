/** The optional-value datatype used for Ruby's `nil`-or-value session fields and request parameters. */
module Wrappers {

  /** `None` models Ruby's `nil`; `Some(v)` a present value. */
  datatype Option<+T> = None | Some(value: T)
}
