/** The Option type used where the source has `undefined` or `NaN`. */
module Opt {

  datatype Option<+T> = None | Some(value: T)
}
