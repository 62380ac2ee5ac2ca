/** A value that may be missing: JavaScript's `undefined` for an absent array
    element, `NaN` for a number that could not be computed, or a thrown error. */
module Opcao {

  datatype Option<+T> = None | Some(value: T)
}
