/** Optional values, results, and lists of sets. */
module Wrappers {
  datatype Option<+T> = None | Some(value: T)

  datatype Result<+T, +E> = Ok(value: T) | Err(error: E)

  lemma PrefixGrows<T>(q: seq<T>, i: nat)
    requires i < |q|
    ensures q[..i] + [q[i]] == q[..i + 1]
  {
  }

  lemma WholePrefix<T>(q: seq<T>)
    ensures q[..|q|] == q
  {
  }

  /** q lists the elements of s, each once. */
  ghost predicate Lists<T(!new)>(q: seq<T>, s: set<T>) {
    && (forall i, j :: 0 <= i < j < |q| ==> q[i] != q[j])
    && (forall x :: x in q <==> x in s)
  }

  lemma ListsAt<T(!new)>(q: seq<T>, s: set<T>, i: nat)
    requires Lists(q, s) && i < |q|
    ensures q[i] in s && q[i] !in q[..i]
  {
    assert q[i] in q;
  }

  /** The elements of a set in some order, as ranging over a map meets its keys. */
  method Enumerate<T(==, !new)>(s: set<T>) returns (q: seq<T>)
    ensures Lists(q, s)
  {
    q := [];
    var rest := s;
    while exists x :: x in rest
      invariant rest <= s && Lists(q, s - rest)
      decreases |rest|
    {
      var x :| x in rest;
      q, rest := q + [x], rest - {x};
    }
    assert s - rest == s;
  }
}
