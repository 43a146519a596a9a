/** The Some/None datatype the model uses for JavaScript's `undefined` and `null` results. */
module Wrappers {

  datatype Option<+T> = None | Some(value: T)
}
