/** What the models share: two result shapes, and white space. */
module Wrappers {

  datatype Option<+T> = None | Some(value: T)

  datatype Result<+T, +E> = Success(value: T) | Failure(error: E)

  predicate IsSpace(c: char) {
    c in {' ', '\t', '\n', '\r'}
  }
}
