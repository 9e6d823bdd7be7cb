/** Facts about sequences shared by the models of lists. */
module Seqs {

  /** Concatenation is associative; stated once so that long concatenations need not be regrouped by the solver. */
  lemma AppendAssoc<T>(a: seq<T>, b: seq<T>, c: seq<T>)
    ensures a + b + c == a + (b + c)
  {
  }
}
