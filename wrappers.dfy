/** Small helper datatypes shared by the other modules. */
module Wrappers {

  /** A value that may be missing: a failed lookup, an index error, a missing file. */
  datatype Option<+T> = None | Some(value: T)

  function Min(a: nat, b: nat): nat
  {
    if a <= b then a else b
  }
}
