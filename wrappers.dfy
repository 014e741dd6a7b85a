/** The optional value used where the source has Rust's `Option`. */
module Wrappers {

  datatype Option<+T> = None | Some(value: T)

  /** `Option::<String>::unwrap_or_default`: an absent string becomes the empty string. */
  function UnwrapOrEmpty(o: Option<string>): (s: string)
    ensures o.None? ==> s == ""
    ensures o.Some? ==> s == o.value
  {
    match o
    case Some(v) => v
    case None => ""
  }
}
