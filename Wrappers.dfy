/** The optional value used by the type-name parser and by the optional
    parts of the syntax tree (a return value, an else branch). */
module Wrappers {
  datatype Option<+T> = None | Some(value: T)
}
