/** Bytes, and what every proof about concatenation needs. */
module Sequences {
  type byte = b: int | 0 <= b < 256

  lemma ConcatAssoc<T>(a: seq<T>, b: seq<T>, c: seq<T>)
    ensures (a + b) + c == a + (b + c)
  {
  }
}
