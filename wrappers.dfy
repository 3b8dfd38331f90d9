/** A value that pandas may hold as NaN: `None` stands for a missing or
    non-numeric cell, `Some(v)` for a present one. */
module Wrappers {

  datatype Option<+T> = None | Some(value: T)
}
