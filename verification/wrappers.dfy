/** Option and Result values used for the controllers' missing fields and error replies. */
module Wrappers {

  datatype Option<+T> = None | Some(value: T)

  datatype Result<+R, +E> = Success(value: R) | Failure(error: E)

  /** JavaScript truthiness of an optional number: `undefined`, `null` and `0` are falsy. */
  predicate IntGiven(x: Option<int>)
  {
    x.Some? && x.value != 0
  }

  /** JavaScript truthiness of an optional string: `undefined`, `null` and `""` are falsy. */
  predicate TextGiven(x: Option<string>)
  {
    x.Some? && x.value != ""
  }
}
