/**
 * Small definitions shared by several modules: the absent-or-present value
 * used wherever the source uses `null`/`undefined`, JavaScript truthiness of
 * an optional string, and the ASCII decimal digits.
 */
module Wrappers {
  datatype Option<+T> = None | Some(value: T)

  /** JavaScript truthiness of a `string | null`: null and '' are falsy. */
  predicate Truthy(s: Option<string>)
  {
    s.Some? && s.value != ""
  }

  /** An ASCII decimal digit (also what `\d` matches without the unicode flag). */
  predicate IsDigit(c: char)
  {
    '0' <= c <= '9'
  }
}
