/**
 * Facts about sequence concatenation, stated once so that proofs elsewhere can
 * cite them instead of asking the solver to rediscover them element by element.
 */
module Seqs {
  /** Concatenation is associative. */
  lemma AppendAssoc<T>(a: seq<T>, b: seq<T>, c: seq<T>)
    ensures a + (b + c) == (a + b) + c
  {
  }
}
