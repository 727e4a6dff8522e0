/** Small facts about sequences used across the model. */
module Seqs {
  /** No value occurs twice: distinct positions hold distinct values. */
  predicate NoDuplicates<T(==)>(s: seq<T>)
  {
    forall i, j :: 0 <= i < j < |s| ==> s[i] != s[j]
  }

  /** How many times `x` occurs in `s`; "exactly once" is a count of one. */
  function CountOf<T(==)>(s: seq<T>, x: T): (n: nat)
    ensures n <= |s|
    ensures n == 0 <==> x !in s
    decreases |s|
  {
    if s == [] then 0 else (if s[0] == x then 1 else 0) + CountOf(s[1..], x)
  }

  lemma {:induction false} CountOfConcat<T>(a: seq<T>, b: seq<T>, x: T)
    ensures CountOf(a + b, x) == CountOf(a, x) + CountOf(b, x)
    decreases |a|
  {
    if a == [] {
      assert a + b == b;
    } else {
      assert (a + b)[0] == a[0] && (a + b)[1..] == a[1..] + b;
      CountOfConcat(a[1..], b, x);
    }
  }

  /** A two-element list holds `t` once if it opens with it and its second element differs. */
  lemma PairCount<T>(f: T, v: T, t: T)
    requires v != t
    ensures CountOf([f, v], t) == if f == t then 1 else 0
  {
    assert [f, v][1..] == [v];
    assert [v][1..] == [];
  }

  /** Counting across the five blocks of a list assembled from parts. */
  lemma CountOfFive<T>(a: seq<T>, b: seq<T>, c: seq<T>, d: seq<T>, e: seq<T>, x: T)
    ensures CountOf(a + b + c + d + e, x)
      == CountOf(a, x) + CountOf(b, x) + CountOf(c, x) + CountOf(d, x) + CountOf(e, x)
  {
    CountOfConcat(a, b, x);
    CountOfConcat(a + b, c, x);
    CountOfConcat(a + b + c, d, x);
    CountOfConcat(a + b + c + d, e, x);
  }

  /** Where each of five parts lands in their concatenation. */
  lemma IndexOfFive<T>(a: seq<T>, b: seq<T>, c: seq<T>, d: seq<T>, e: seq<T>)
    ensures var r := a + b + c + d + e;
      r[..|a|] == a
      && r[|a|..|a| + |b|] == b
      && r[|a| + |b|..|a| + |b| + |c|] == c
      && r[|r| - |e| - |d|..|r| - |e|] == d
      && r[|r| - |e|..] == e
  {
  }

  /** Regrouping a concatenation; extending a list block by block relies on it. */
  lemma AppendAssoc<T>(a: seq<T>, b: seq<T>, c: seq<T>)
    ensures a + b + c == a + (b + c)
  {
  }
}
