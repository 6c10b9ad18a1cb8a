/** Failure-compatible result used wherever the library panics
    (a failed `assert!`, `unreachable!` or `unwrap`): `None` is the panic. */
module Wrappers {
  datatype Option<+T> = None | Some(value: T)
}
