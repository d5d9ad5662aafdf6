/** Success-or-error results, standing for the exceptions the services raise. */
module Results {
  datatype Option<+T> = None | Some(value: T)

  /** Nothing but (ASCII) white space. */
  predicate Blank(text: string) {
    forall c <- text :: c == ' ' || '\t' <= c <= '\r' || '\U{1C}' <= c <= '\U{1F}'
  }

  datatype Result<+T, +E> = Ok(value: T) | Err(error: E)
}
