/** Small facts about slices of sequences, kept apart from the model so that each is proved in an empty context. */
module Seqs {
  lemma SliceAll<T>(s: seq<T>)
    ensures s[..|s|] == s
  {
  }

  lemma PrefixOfConcat<T>(a: seq<T>, b: seq<T>)
    ensures (a + b)[..|a|] == a
  {
  }

  lemma SliceOfInit<T>(s: seq<T>, j: nat)
    requires j < |s|
    ensures s[..|s| - 1][..j] == s[..j]
  {
  }

  lemma SliceSnoc<T>(s: seq<T>, k: nat)
    requires k < |s|
    ensures s[..k] + [s[k]] == s[..k + 1]
  {
  }

  lemma InitLast<T>(s: seq<T>)
    requires |s| > 0
    ensures s[..|s| - 1] + [s[|s| - 1]] == s
  {
  }

  lemma SliceJoin<T>(s: seq<T>, k: nat)
    requires k <= |s|
    ensures s[..k] + s[k..] == s
  {
  }

  lemma Assoc<T>(a: seq<T>, b: seq<T>, c: seq<T>)
    ensures a + b + c == a + (b + c)
  {
  }

  lemma Regroup<T>(p: seq<T>, n: seq<T>, q: seq<T>, k: seq<T>, x: seq<T>, c: seq<T>)
    ensures p + n + q + k + x + c == p + (n + q + (k + (x + c)))
  {
  }

  /** No element occurs twice. */
  predicate Distinct<T(==)>(s: seq<T>) {
    forall i, j :: 0 <= i < j < |s| ==> s[i] != s[j]
  }

  lemma DistinctSnoc<T>(s: seq<T>, x: T)
    requires Distinct(s) && x !in s
    ensures Distinct(s + [x])
  {
  }
}
