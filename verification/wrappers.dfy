/** The "value or nothing" type the rest of the model uses for JavaScript's
    null, undefined and NaN results. */
module Wrappers {

  datatype Option<+T> = None | Some(value: T)
}
