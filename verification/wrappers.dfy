/** Failure-compatible optional value, used where the storefront returns
    `null`, `undefined` or "no match". */
module Wrappers {

  datatype Option<+T> = None | Some(value: T)

}
