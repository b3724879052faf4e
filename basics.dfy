/** Optional values and the outcome of a call that may raise. */
module Basics {

  datatype Option<+T> = None | Some(value: T)

  /** `Raised` stands for any Python exception escaping the call; the message is not modelled. */
  datatype Result<+T> = Ok(value: T) | Raised

  /** A Python string is falsy exactly when it is empty; a missing value is falsy too. */
  predicate Truthy(s: Option<string>) {
    s.Some? && s.value != ""
  }

  /** `s.startswith(prefix)` */
  predicate HasPrefix(s: string, prefix: string) {
    |prefix| <= |s| && s[..|prefix|] == prefix
  }
}
