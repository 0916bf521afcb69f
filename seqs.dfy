/**
 * The array operations the application composes: `filter`, `slice(0, n)` and the stable
 * `sort` with a descending comparator `(a, b) => key(b) - key(a)`.
 */
module Seqs {

  /** `s.filter(p)`: the elements satisfying `p`, in their original order. */
  function Filter<T>(s: seq<T>, p: T -> bool): (r: seq<T>)
    ensures |r| <= |s|
    ensures forall i :: 0 <= i < |r| ==> p(r[i])
    ensures multiset(r) <= multiset(s)
    ensures (forall i :: 0 <= i < |s| ==> p(s[i])) ==> r == s
  {
    if s == [] then []
    else
      var rest := Filter(s[1..], p);
      assert s == [s[0]] + s[1..];
      if p(s[0]) then [s[0]] + rest else rest
  }

  /** Every occurrence of a passing element is kept, and no occurrence of a failing one. */
  lemma {:induction false} FilterCounts<T>(s: seq<T>, p: T -> bool, x: T)
    ensures multiset(Filter(s, p))[x] == if p(x) then multiset(s)[x] else 0
  {
    if s != [] {
      FilterCounts(s[1..], p, x);
      assert s == [s[0]] + s[1..];
      assert multiset(s) == multiset{s[0]} + multiset(s[1..]);
    }
  }

  /** An element is kept exactly when it occurs in `s` and satisfies `p`. */
  lemma {:induction false} FilterMembership<T>(s: seq<T>, p: T -> bool, x: T)
    ensures x in Filter(s, p) <==> x in s && p(x)
  {
    if s != [] {
      FilterMembership(s[1..], p, x);
      assert s == [s[0]] + s[1..];
    }
  }

  lemma {:induction false} FilterAppend<T>(a: seq<T>, b: seq<T>, p: T -> bool)
    ensures Filter(a + b, p) == Filter(a, p) + Filter(b, p)
  {
    if a == [] {
      assert a + b == b;
    } else {
      assert (a + b)[1..] == a[1..] + b;
      FilterAppend(a[1..], b, p);
    }
  }

  /** `r` is `s` with some elements left out and the others kept in order. */
  predicate IsSubsequence<T(==)>(r: seq<T>, s: seq<T>)
    decreases |s|
  {
    if r == [] then true
    else if s == [] then false
    else if r[0] == s[0] then IsSubsequence(r[1..], s[1..])
    else IsSubsequence(r, s[1..])
  }

  lemma {:induction false} FilterIsSubsequence<T>(s: seq<T>, p: T -> bool)
    ensures IsSubsequence(Filter(s, p), s)
  {
    if s != [] {
      FilterIsSubsequence(s[1..], p);
      if p(s[0]) {
        assert Filter(s, p) == [s[0]] + Filter(s[1..], p);
        assert Filter(s, p)[1..] == Filter(s[1..], p);
      } else {
        SubsequenceOfTail(Filter(s[1..], p), s);
      }
    }
  }

  lemma SubsequenceOfTail<T>(r: seq<T>, s: seq<T>)
    requires s != [] && IsSubsequence(r, s[1..])
    ensures IsSubsequence(r, s)
    decreases |s|, |r|
  {
    if r != [] && r[0] == s[0] {
      SubsequenceDropHead(r, s[1..]);
    }
  }

  lemma SubsequenceDropHead<T>(r: seq<T>, s: seq<T>)
    requires r != [] && IsSubsequence(r, s)
    ensures IsSubsequence(r[1..], s)
    decreases |s|, |r|
  {
    if r[0] != s[0] {
      SubsequenceDropHead(r, s[1..]);
    }
    SubsequenceOfTail(r[1..], s);
  }

  /** Strictly increasing by `key`. */
  predicate Ascending<T>(s: seq<T>, key: T -> int)
  {
    forall i, j :: 0 <= i < j < |s| ==> key(s[i]) < key(s[j])
  }

  /** Putting in front an element with a key below every key of an ascending sequence keeps it ascending. */
  lemma PrependAscending<T>(x: T, s: seq<T>, key: T -> int)
    requires Ascending(s, key)
    requires forall k :: 0 <= k < |s| ==> key(x) < key(s[k])
    ensures Ascending([x] + s, key)
  {
    var r := [x] + s;
    forall i, j | 0 <= i < j < |r| ensures key(r[i]) < key(r[j]) {
      assert r[j] == s[j - 1];
      if i > 0 {
        assert r[i] == s[i - 1];
      }
    }
  }

  /** The first element of an ascending sequence is below everything the filter keeps of the rest. */
  lemma HeadBelowFilteredTail<T>(s: seq<T>, p: T -> bool, key: T -> int)
    requires s != [] && Ascending(s, key)
    ensures forall k :: 0 <= k < |Filter(s[1..], p)| ==> key(s[0]) < key(Filter(s[1..], p)[k])
  {
    var tail := s[1..];
    var rest := Filter(tail, p);
    forall k | 0 <= k < |rest| ensures key(s[0]) < key(rest[k]) {
      assert rest[k] in multiset(tail);
      var idx :| 0 <= idx < |tail| && tail[idx] == rest[k];
      assert s[idx + 1] == rest[k];
    }
  }

  lemma {:induction false} FilterKeepsAscending<T>(s: seq<T>, p: T -> bool, key: T -> int)
    requires Ascending(s, key)
    ensures Ascending(Filter(s, p), key)
    decreases |s|
  {
    if s != [] {
      var tail := s[1..];
      assert Ascending(tail, key);
      FilterKeepsAscending(tail, p, key);
      if p(s[0]) {
        HeadBelowFilteredTail(s, p, key);
        PrependAscending(s[0], Filter(tail, p), key);
      }
    }
  }

  /** `s.slice(0, n)`. */
  function Take<T>(s: seq<T>, n: nat): (r: seq<T>)
    ensures |r| == if |s| <= n then |s| else n
    ensures r == s[..|r|]
  {
    if |s| <= n then s else s[..n]
  }

  /** Non-increasing by `key`. */
  predicate SortedDesc<T>(s: seq<T>, key: T -> real)
  {
    forall i, j :: 0 <= i < j < |s| ==> key(s[i]) >= key(s[j])
  }

  /** Places `x` before the first element whose key does not exceed `key(x)`. */
  function Insert<T>(x: T, s: seq<T>, key: T -> real): (r: seq<T>)
    ensures |r| == |s| + 1
    ensures multiset(r) == multiset(s) + multiset{x}
  {
    if s == [] then [x]
    else if key(x) >= key(s[0]) then [x] + s
    else
      assert s == [s[0]] + s[1..];
      [s[0]] + Insert(x, s[1..], key)
  }

  /** Putting in front an element whose key is at least every key of a sorted sequence keeps it sorted. */
  lemma PrependSorted<T>(x: T, s: seq<T>, key: T -> real)
    requires SortedDesc(s, key)
    requires forall k :: 0 <= k < |s| ==> key(x) >= key(s[k])
    ensures SortedDesc([x] + s, key)
  {
    var r := [x] + s;
    forall i, j | 0 <= i < j < |r| ensures key(r[i]) >= key(r[j]) {
      assert r[j] == s[j - 1];
      if i > 0 {
        assert r[i] == s[i - 1];
      }
    }
  }

  /** Every element of `Insert(x, s, key)` is `x` or an element of `s`. */
  lemma BoundedByHead<T>(x: T, s: seq<T>, key: T -> real, top: real)
    requires key(x) <= top && forall k :: 0 <= k < |s| ==> key(s[k]) <= top
    ensures forall k :: 0 <= k < |s| + 1 ==> key(Insert(x, s, key)[k]) <= top
  {
    var r := Insert(x, s, key);
    forall k | 0 <= k < |r| ensures key(r[k]) <= top {
      assert r[k] in multiset(r);
      if r[k] != x {
        assert r[k] in multiset(s);
      }
    }
  }

  lemma {:induction false} InsertSorted<T>(x: T, s: seq<T>, key: T -> real)
    requires SortedDesc(s, key)
    ensures SortedDesc(Insert(x, s, key), key)
  {
    if s == [] {
    } else if key(x) >= key(s[0]) {
      PrependSorted(x, s, key);
    } else {
      var tail := s[1..];
      assert SortedDesc(tail, key);
      InsertSorted(x, tail, key);
      BoundedByHead(x, tail, key, key(s[0]));
      PrependSorted(s[0], Insert(x, tail, key), key);
    }
  }

  /**
   * The stable sort of `s` by descending key: an element that comes first in `s` stays first
   * among elements of equal key, as `Array.prototype.sort` guarantees.
   */
  function SortDesc<T>(s: seq<T>, key: T -> real): (r: seq<T>)
    ensures |r| == |s|
    ensures multiset(r) == multiset(s)
    ensures SortedDesc(r, key)
  {
    if s == [] then []
    else
      assert s == [s[0]] + s[1..];
      InsertSorted(s[0], SortDesc(s[1..], key), key);
      Insert(s[0], SortDesc(s[1..], key), key)
  }

  /** The first `n` elements of the sorted sequence are sorted and each comes from `s`. */
  lemma TopOfSortedFromS<T>(s: seq<T>, key: T -> real, n: nat)
    ensures var r := Take(SortDesc(s, key), n);
            SortedDesc(r, key) && multiset(r) <= multiset(s) &&
            forall i :: 0 <= i < |r| ==> exists j :: 0 <= j < |s| && s[j] == r[i]
  {
    var sorted := SortDesc(s, key);
    var r := Take(sorted, n);
    assert sorted == r + sorted[|r|..];
    assert multiset(sorted) == multiset(r) + multiset(sorted[|r|..]);
    forall i, j | 0 <= i < j < |r| ensures key(r[i]) >= key(r[j]) {
      assert r[i] == sorted[i] && r[j] == sorted[j];
    }
    forall i | 0 <= i < |r| ensures exists j :: 0 <= j < |s| && s[j] == r[i] {
      assert r[i] in multiset(sorted);
    }
  }

  /** In a sorted sequence, nothing after position `m` has a key above anything before it. */
  lemma SortedPrefixDominates<T>(t: seq<T>, key: T -> real, m: nat)
    requires SortedDesc(t, key) && m <= |t|
    ensures forall x :: x in multiset(t[m..]) ==> forall i :: 0 <= i < m ==> key(x) <= key(t[i])
  {
    forall x | x in multiset(t[m..]) ensures forall i :: 0 <= i < m ==> key(x) <= key(t[i]) {
      var k :| 0 <= k < |t| - m && t[m..][k] == x;
      assert t[m + k] == x;
    }
  }

  /** Every element of `s` left out of the first `n` has a key no greater than any kept one. */
  lemma {:induction false} TopOfSortedIsBest<T>(s: seq<T>, key: T -> real, n: nat)
    ensures var r := Take(SortDesc(s, key), n);
            forall x :: x in multiset(s) - multiset(r) ==> forall i :: 0 <= i < |r| ==> key(x) <= key(r[i])
  {
    var sorted := SortDesc(s, key);
    var r := Take(sorted, n);
    assert sorted == r + sorted[|r|..];
    assert multiset(s) - multiset(r) == multiset(sorted[|r|..]);
    SortedPrefixDominates(sorted, key, |r|);
  }
}
