/** `Array.prototype.filter` and `Array.prototype.map`, which the editor uses
    on its table list, on a table's columns and on the relationship list. */
module Seqs {

  /** `f` applied to each element of `s`, in order. */
  function Map<T, U>(s: seq<T>, f: T -> U): seq<U> {
    if |s| == 0 then [] else Map(s[..|s| - 1], f) + [f(s[|s| - 1])]
  }

  /** One result per element, and the `k`-th result is `f` of the `k`-th
      element. */
  lemma {:induction false} MapPointwise<T, U>(s: seq<T>, f: T -> U)
    ensures |Map(s, f)| == |s|
    ensures forall k :: 0 <= k < |s| ==> Map(s, f)[k] == f(s[k])
  {
    if |s| > 0 {
      var prefix := s[..|s| - 1];
      MapPointwise(prefix, f);
      assert forall k :: 0 <= k < |prefix| ==> prefix[k] == s[k];
    }
  }

  /** Mapping distributes over concatenation. */
  lemma MapSingleton<T, U>(x: T, f: T -> U)
    ensures Map([x], f) == [f(x)]
  {
    assert [x][..0] == [];
  }

  lemma {:induction false} MapAppend<T, U>(a: seq<T>, b: seq<T>, f: T -> U)
    ensures Map(a + b, f) == Map(a, f) + Map(b, f)
    decreases |b|
  {
    if |b| == 0 {
      assert a + b == a;
    } else {
      var b' := b[..|b| - 1];
      assert (a + b)[..|a + b| - 1] == a + b';
      MapAppend(a, b', f);
    }
  }

  /** The elements of `s` that `keep` accepts, in their order in `s`. */
  function Filter<T>(s: seq<T>, keep: T -> bool): (r: seq<T>)
    ensures |r| <= |s|
    ensures forall i :: 0 <= i < |r| ==> keep(r[i])
  {
    if |s| == 0 then []
    else Filter(s[..|s| - 1], keep) + (if keep(s[|s| - 1]) then [s[|s| - 1]] else [])
  }

  /** Filtering distributes over concatenation: the kept elements of a prefix
      come before the kept elements of what follows it, so relative order is
      preserved. */
  lemma {:induction false} FilterAppend<T>(a: seq<T>, b: seq<T>, keep: T -> bool)
    ensures Filter(a + b, keep) == Filter(a, keep) + Filter(b, keep)
    decreases |b|
  {
    if |b| == 0 {
      assert a + b == a;
    } else {
      var b' := b[..|b| - 1];
      assert (a + b)[..|a + b| - 1] == a + b';
      FilterAppend(a, b', keep);
    }
  }

  /** An element is kept exactly when it is in `s` and passes the test. */
  lemma {:induction false} FilterMembership<T>(s: seq<T>, keep: T -> bool, x: T)
    ensures x in Filter(s, keep) <==> x in s && keep(x)
  {
    if |s| > 0 {
      var s' := s[..|s| - 1];
      FilterMembership(s', keep, x);
      assert s == s' + [s[|s| - 1]];
    }
  }

  /** Nothing is removed when every element passes. */
  lemma {:induction false} FilterKeepsAll<T>(s: seq<T>, keep: T -> bool)
    requires forall i :: 0 <= i < |s| ==> keep(s[i])
    ensures Filter(s, keep) == s
  {
    if |s| > 0 {
      FilterKeepsAll(s[..|s| - 1], keep);
    }
  }

  /** The result is empty exactly when no element passes. */
  lemma {:induction false} FilterEmpty<T>(s: seq<T>, keep: T -> bool)
    ensures Filter(s, keep) == [] <==> forall i :: 0 <= i < |s| ==> !keep(s[i])
  {
    if |s| > 0 {
      var s' := s[..|s| - 1];
      FilterEmpty(s', keep);
      assert forall i :: 0 <= i < |s'| ==> s'[i] == s[i];
    }
  }

  /** Filtering with the same test twice removes nothing more. */
  lemma FilterIdempotent<T>(s: seq<T>, keep: T -> bool)
    ensures Filter(Filter(s, keep), keep) == Filter(s, keep)
  {
    FilterKeepsAll(Filter(s, keep), keep);
  }
}
