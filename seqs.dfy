/** Two facts about sequence concatenation the loop proofs step through. */
module Seqs {

  lemma AppendAssoc<T>(a: seq<T>, b: seq<T>, c: seq<T>)
    ensures a + (b + c) == (a + b) + c
  {
  }

  /** Extending a prefix of xs by its next element gives the next prefix. */
  lemma AppendNext<T>(before: seq<T>, xs: seq<T>, i: int)
    requires 0 <= i < |xs|
    ensures before + xs[..i] + [xs[i]] == before + xs[..i + 1]
  {
    assert xs[..i] + [xs[i]] == xs[..i + 1];
  }
}
