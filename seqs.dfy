/** Small facts about sequences, kept apart so that proofs about larger
    structures can cite them without re-deriving them. */
module Seqs {
  lemma AppendAssoc<T>(a: seq<T>, b: seq<T>, c: seq<T>)
    ensures a + (b + c) == (a + b) + c
  {
  }

  /** The first n elements are the first one followed by the next n - 1. */
  lemma PrefixCons<T>(s: seq<T>, n: int)
    requires 0 < n <= |s|
    ensures s[..n] == [s[0]] + s[1..][..n - 1]
  {
  }

  /** Dropping the head of a concatenation whose left part is not empty. */
  lemma TailOfAppend<T>(a: seq<T>, b: seq<T>)
    requires a != []
    ensures (a + b)[0] == a[0] && (a + b)[1..] == a[1..] + b
  {
  }

  /** Dropping i elements and then one more is dropping i + 1. */
  lemma DropOneMore<T>(s: seq<T>, i: int)
    requires 0 <= i < |s|
    ensures s[i..][0] == s[i] && s[i..][1..] == s[i + 1..]
  {
  }
}
