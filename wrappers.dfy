/** The optional values of the TypeScript source (`x?: T`, `Map.get` returning `undefined`). */
module Wrappers {

  datatype Option<+T> = None | Some(value: T)
}
