/** The optional value used wherever the source has a JavaScript value that may be
    null or undefined. */
module Wrappers {
  datatype Option<+T> = None | Some(value: T)

  /** JavaScript truthiness of a value that is either a string or null/undefined:
      only a present, non-empty string is truthy. */
  predicate TruthyString(s: Option<string>)
  {
    s.Some? && s.value != ""
  }
}
