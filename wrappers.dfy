/** Absence of a value, standing for a TypeScript `null` result. */
module Wrappers {
  datatype Option<+T> = None | Some(value: T)
}
