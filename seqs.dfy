/**
  Small facts about sequences, stated once and used where the solver would otherwise have to
  rediscover them inside a large proof context.
 */
module Seqs {

  lemma Assoc<T>(a: seq<T>, b: seq<T>, c: seq<T>)
    ensures a + b + c == a + (b + c)
  {
  }

  lemma AppendEmpty<T>(a: seq<T>)
    ensures a + [] == a
  {
  }

  lemma SeqExt<T>(a: seq<T>, b: seq<T>)
    requires |a| == |b| && forall i :: 0 <= i < |a| ==> a[i] == b[i]
    ensures a == b
  {
  }

  lemma FullSlice<T>(a: seq<T>)
    ensures a[..|a|] == a
  {
  }

  /** A prefix extended by the next slice is the longer prefix. */
  lemma SlicePrefix<T>(a: seq<T>, i: nat, j: nat)
    requires i <= j <= |a|
    ensures a[..j] == a[..i] + a[i..j]
  {
  }

  /** A prefix one longer is the prefix extended by the next element. */
  lemma PrefixSnoc<T>(a: seq<T>, k: nat)
    requires k < |a|
    ensures a[..k + 1] == a[..k] + [a[k]]
  {
  }

  /** A non-empty sequence is its front followed by its last element. */
  lemma Snoc<T>(a: seq<T>)
    requires a != []
    ensures a == a[..|a| - 1] + [a[|a| - 1]]
  {
  }

  /** An element of a non-empty sequence is in its front or is its last element. */
  lemma InSnoc<T>(a: seq<T>, x: T)
    requires a != []
    ensures x in a <==> x in a[..|a| - 1] || x == a[|a| - 1]
  {
    Snoc(a);
  }

  /** The front of a sequence extended by one element. */
  lemma FrontOfSnoc<T>(a: seq<T>, x: T)
    ensures (a + [x])[..|a|] == a
  {
  }
}
