/** Facts about sequences that the string and traversal proofs share. */
module Seqs {

  /** Concatenation does not depend on grouping. */
  lemma AppendAssoc<T>(a: seq<T>, b: seq<T>, c: seq<T>)
    ensures a + b + c == a + (b + c)
  {
  }
}
