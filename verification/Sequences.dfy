module Sequences {
  /** Concatenation is associative. */
  lemma Behind<T>(a: seq<T>, b: seq<T>, c: seq<T>)
    ensures a + b + c == a + (b + c)
  {
  }
}
