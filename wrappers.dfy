/** The optional value used throughout the model: JavaScript's `undefined`
    result of `find`, a `null` id, or a `NaN` from parsing. */
module Wrappers {

  datatype Option<+T> = None | Some(value: T)
}
