/** Failure-carrying datatypes used throughout the model: `Option` stands for
    a value that may be `null`/`undefined`, and `Result` for a call that either
    returns a value or throws. */
module Wrappers {

  datatype Option<+T> = None | Some(value: T)

  datatype Result<+R, +E> = Success(value: R) | Failure(error: E)
}

/** JavaScript truthiness, restricted to the nullable strings the storefront
    tests with `if (s)`, `!s` and `s || null`. */
module Js {
  import opened Wrappers

  /** A nullable string is truthy when it is present and non-empty. */
  predicate Truthy(s: Option<string>) {
    s.Some? && s.value != ""
  }

  /** `s || null`: keeps a truthy string and turns `""` and `null` into `null`. */
  function OrNull(s: Option<string>): (r: Option<string>)
    ensures r.Some? <==> Truthy(s)
    ensures Truthy(s) ==> r == s
    ensures r.Some? ==> r.value != ""
  {
    if Truthy(s) then s else None
  }
}
