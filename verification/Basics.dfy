/** What several modules need and none of them owns. */
module Basics {

  datatype Option<+T> = None | Some(value: T)

  /** White space in ASCII, as far as strings.TrimSpace sees it. */
  predicate IsSpace(c: char) {
    c == ' ' || '\t' <= c <= '\r'
  }

  lemma Associates<T>(a: seq<T>, b: seq<T>, c: seq<T>)
    ensures a + (b + c) == a + b + c
  {
  }
}
