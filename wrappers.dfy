/** Shared optional and pass/fail results: an optional value (a nullable column or prop) and
    the outcome of a check that either passes or names what failed. */
module Wrappers {

  datatype Option<+T> = None | Some(value: T)

  datatype Outcome<+E> = Pass | Fail(error: E)
}
