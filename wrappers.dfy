/** The absent-or-present value the calculator uses for `null` results and failed lookups. */
module Wrappers {
  datatype Option<+T> = None | Some(value: T)
}
