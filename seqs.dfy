/**
 * Sequence operations behind the array methods the pages call: `filter` and
 * `slice`, and the notion of a subsequence (order-preserving selection).
 */
module Seqs {

  /** The elements of `s` that satisfy `p`, in their original order (`Array.prototype.filter`). */
  function Filter<T>(s: seq<T>, p: T -> bool): (r: seq<T>)
    ensures |r| <= |s|
    decreases |s|
  {
    if s == [] then []
    else Filter(s[..|s| - 1], p) + (if p(s[|s| - 1]) then [s[|s| - 1]] else [])
  }

  /** Filtering a concatenation filters each part. */
  lemma {:induction false} FilterAppend<T>(a: seq<T>, b: seq<T>, p: T -> bool)
    ensures Filter(a + b, p) == Filter(a, p) + Filter(b, p)
    decreases |b|
  {
    if b == [] {
      assert a + b == a;
    } else {
      var b' := b[..|b| - 1];
      assert (a + b)[..|a + b| - 1] == a + b';
      assert (a + b)[|a + b| - 1] == b[|b| - 1];
      FilterAppend(a, b', p);
    }
  }

  /** An element survives the filter exactly when it is in `s` and satisfies `p`. */
  lemma {:induction false} FilterMembers<T>(s: seq<T>, p: T -> bool)
    ensures forall x :: x in Filter(s, p) <==> x in s && p(x)
    decreases |s|
  {
    if s != [] {
      var init := s[..|s| - 1];
      FilterMembers(init, p);
      assert s == init + [s[|s| - 1]];
    }
  }

  /** Every element of the result satisfies `p`. */
  lemma {:induction false} FilterSatisfies<T>(s: seq<T>, p: T -> bool)
    ensures forall i :: 0 <= i < |Filter(s, p)| ==> p(Filter(s, p)[i])
    decreases |s|
  {
    if s != [] {
      FilterSatisfies(s[..|s| - 1], p);
    }
  }

  /** A filter that every element passes returns its input unchanged. */
  lemma {:induction false} FilterKeepsAll<T>(s: seq<T>, p: T -> bool)
    requires forall i :: 0 <= i < |s| ==> p(s[i])
    ensures Filter(s, p) == s
    decreases |s|
  {
    if s != [] {
      var init := s[..|s| - 1];
      FilterKeepsAll(init, p);
      assert s == init + [s[|s| - 1]];
    }
  }

  /** A filter that no element passes returns the empty sequence. */
  lemma {:induction false} FilterDropsAll<T>(s: seq<T>, p: T -> bool)
    requires forall i :: 0 <= i < |s| ==> !p(s[i])
    ensures Filter(s, p) == []
    decreases |s|
  {
    if s != [] {
      FilterDropsAll(s[..|s| - 1], p);
    }
  }

  /** Filtering by `p` and then by `q` is filtering by their conjunction. */
  lemma {:induction false} FilterFilter<T>(s: seq<T>, p: T -> bool, q: T -> bool, pq: T -> bool)
    requires forall x :: pq(x) == (p(x) && q(x))
    ensures Filter(Filter(s, p), q) == Filter(s, pq)
    decreases |s|
  {
    if s != [] {
      var init, last := s[..|s| - 1], s[|s| - 1];
      FilterFilter(init, p, q, pq);
      FilterAppend(Filter(init, p), if p(last) then [last] else [], q);
    }
  }

  /** Filters with pointwise equal predicates agree. */
  lemma {:induction false} FilterExtensional<T>(s: seq<T>, p: T -> bool, q: T -> bool)
    requires forall i :: 0 <= i < |s| ==> p(s[i]) == q(s[i])
    ensures Filter(s, p) == Filter(s, q)
    decreases |s|
  {
    if s != [] {
      FilterExtensional(s[..|s| - 1], p, q);
    }
  }

  /**
   * `idx` lists, in strictly increasing order, positions of `b` at which the
   * elements of `a` are found: `a` is then a subsequence of `b`.
   */
  ghost predicate Embeds<T>(idx: seq<int>, a: seq<T>, b: seq<T>) {
    && |idx| == |a|
    && (forall i :: 0 <= i < |idx| ==> 0 <= idx[i] < |b| && a[i] == b[idx[i]])
    && (forall i, j :: 0 <= i < j < |idx| ==> idx[i] < idx[j])
  }

  /** `a` is obtained from `b` by deleting elements, keeping the order of the rest. */
  ghost predicate IsSubsequence<T>(a: seq<T>, b: seq<T>) {
    exists idx :: Embeds(idx, a, b)
  }

  /** The positions at which the filtered elements sit in the input. */
  lemma {:induction false} FilterPositions<T>(s: seq<T>, p: T -> bool) returns (idx: seq<int>)
    ensures Embeds(idx, Filter(s, p), s)
    decreases |s|
  {
    if s == [] {
      idx := [];
    } else {
      var n := |s| - 1;
      var init := s[..n];
      var idx0 := FilterPositions(init, p);
      assert forall i :: 0 <= i < |idx0| ==> idx0[i] < n;
      idx := if p(s[n]) then idx0 + [n] else idx0;
    }
  }

  /** A filter result is a subsequence of its input. */
  lemma FilterIsSubsequence<T>(s: seq<T>, p: T -> bool)
    ensures IsSubsequence(Filter(s, p), s)
  {
    var idx := FilterPositions(s, p);
  }

  /** A prefix of a subsequence is a subsequence. */
  lemma PrefixIsSubsequence<T>(a: seq<T>, b: seq<T>, k: nat)
    requires IsSubsequence(a, b)
    requires k <= |a|
    ensures IsSubsequence(a[..k], b)
  {
    var idx :| Embeds(idx, a, b);
    assert Embeds(idx[..k], a[..k], b);
  }

  /** `s` back to front. */
  function Reverse<T>(s: seq<T>): (r: seq<T>)
    ensures |r| == |s|
    ensures forall i :: 0 <= i < |s| ==> r[i] == s[|s| - 1 - i]
    decreases |s|
  {
    if s == [] then [] else Reverse(s[1..]) + [s[0]]
  }

  /** Reversing only reorders. */
  lemma {:induction false} ReversePermutes<T>(s: seq<T>)
    ensures multiset(Reverse(s)) == multiset(s)
    decreases |s|
  {
    if s != [] {
      ReversePermutes(s[1..]);
      assert s == [s[0]] + s[1..];
    }
  }

  /** An element found at two positions occurs at least twice. */
  lemma TwoPositions<T>(s: seq<T>, i: int, j: int)
    requires 0 <= i < j < |s| && s[i] == s[j]
    ensures multiset(s)[s[i]] >= 2
  {
    assert s == s[..j] + s[j..];
    assert s[i] in s[..j];
    assert s[j] in s[j..];
  }

  /** `s` is in non-decreasing order of `key`. */
  predicate Ascending<T>(s: seq<T>, key: T -> real) {
    forall i, j :: 0 <= i < j < |s| ==> key(s[i]) <= key(s[j])
  }

  /** `s` is in strictly increasing order of `key`. */
  predicate StrictlyAscending<T>(s: seq<T>, key: T -> real) {
    forall i, j :: 0 <= i < j < |s| ==> key(s[i]) < key(s[j])
  }

  /** Of two orderings of the same elements, the first strictly ascending, both start alike. */
  lemma SameHead<T>(s: seq<T>, u: seq<T>, key: T -> real)
    requires s != [] && StrictlyAscending(s, key) && Ascending(u, key)
    requires multiset(s) == multiset(u)
    ensures u != [] && u[0] == s[0]
  {
    assert s[0] in multiset(u);
    var k :| 0 <= k < |u| && u[k] == s[0];
    assert u[0] in multiset(s);
    var j :| 0 <= j < |s| && s[j] == u[0];
    assert key(u[0]) <= key(u[k]);
    assert j <= 0;
  }

  /** Removing equal heads from two orderings of the same elements leaves orderings of the same elements. */
  lemma SameTails<T>(s: seq<T>, u: seq<T>)
    requires s != [] && u != [] && s[0] == u[0]
    requires multiset(s) == multiset(u)
    ensures multiset(s[1..]) == multiset(u[1..])
  {
    assert s == [s[0]] + s[1..];
    assert u == [u[0]] + u[1..];
    assert multiset(s) == multiset{s[0]} + multiset(s[1..]);
    assert multiset(u) == multiset{s[0]} + multiset(u[1..]);
    assert multiset(s[1..]) == multiset(s) - multiset{s[0]};
  }

  /** The tails of ordered sequences are ordered. */
  lemma OrderedTails<T>(s: seq<T>, u: seq<T>, key: T -> real)
    requires s != [] && u != [] && StrictlyAscending(s, key) && Ascending(u, key)
    ensures StrictlyAscending(s[1..], key) && Ascending(u[1..], key)
  {
    forall i, j | 0 <= i < j < |s| - 1 ensures key(s[1..][i]) < key(s[1..][j]) {
      assert s[1..][i] == s[i + 1] && s[1..][j] == s[j + 1];
    }
    forall i, j | 0 <= i < j < |u| - 1 ensures key(u[1..][i]) <= key(u[1..][j]) {
      assert u[1..][i] == u[i + 1] && u[1..][j] == u[j + 1];
    }
  }

  /** A strictly ascending ordering is the only ascending ordering of its elements. */
  lemma {:induction false} AscendingIsUnique<T>(s: seq<T>, u: seq<T>, key: T -> real)
    requires StrictlyAscending(s, key) && Ascending(u, key)
    requires multiset(s) == multiset(u)
    ensures s == u
    decreases |s|
  {
    if s == [] {
      assert |multiset(u)| == 0;
    } else {
      SameHead(s, u, key);
      SameTails(s, u);
      OrderedTails(s, u, key);
      AscendingIsUnique(s[1..], u[1..], key);
      assert s == [s[0]] + s[1..];
      assert u == [u[0]] + u[1..];
    }
  }
}
