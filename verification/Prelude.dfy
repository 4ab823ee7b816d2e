/** Optional values, transaction results and characters shared by every module. */
module Prelude {

  datatype Option<+T> = None | Some(value: T)

  /** A committed transaction's value, or the error that rolled it back. */
  datatype Result<+T, +E> = Ok(value: T) | Err(error: E)

  type Time = int

  /** The characters that Python's str.isspace, strip and the \s class all mean. */
  predicate IsSpace(c: char) {
    || '\t' <= c <= '\r' || '\U{1C}' <= c <= ' ' || c == '\U{85}' || c == '\U{A0}' || c == '\U{1680}'
    || '\U{2000}' <= c <= '\U{200A}' || c == '\U{2028}' || c == '\U{2029}' || c == '\U{202F}'
    || c == '\U{205F}' || c == '\U{3000}'
  }
}
