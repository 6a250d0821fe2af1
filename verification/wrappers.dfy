/** Option and Result, the two failure-carrying shapes the Rust code uses
    (`Option<&Command>` from a lookup, `Result<Value, String>` from a handler). */
module Wrappers {

  datatype Option<+T> = None | Some(value: T)

  datatype Result<+R, +E> = Success(value: R) | Failure(error: E)
}
