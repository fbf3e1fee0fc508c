/** Failure-carrying values: a Ruby method that may raise is modelled as a
    function or method returning one of these. */
module Wrappers {

  datatype Option<+T> = None | Some(value: T)

  datatype Result<+R, +E> = Ok(value: R) | Err(error: E)
}
