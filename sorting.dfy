/**
 * Python's `sorted` on a list of integers: the ascending rearrangement of its
 * argument. Integers are totally ordered, so that rearrangement is unique and
 * the stability of the library sort plays no part.
 */
module Sorting {

  predicate Ascending(s: seq<int>) {
    forall i, j :: 0 <= i < j < |s| ==> s[i] <= s[j]
  }

  /** `x` placed before the first element not smaller than it. */
  function Insert(x: int, s: seq<int>): seq<int>
    decreases |s|
  {
    if s == [] || x <= s[0] then [x] + s else [s[0]] + Insert(x, s[1..])
  }

  /** `sorted(s)`. */
  function Sort(s: seq<int>): seq<int>
    decreases |s|
  {
    if s == [] then [] else Insert(s[0], Sort(s[1..]))
  }

  /** An element no larger than any element of an ascending sequence can be put in front of it. */
  lemma AscendingCons(h: int, r: seq<int>)
    requires Ascending(r) && forall k :: 0 <= k < |r| ==> h <= r[k]
    ensures Ascending([h] + r)
  {
    forall i, j | 0 <= i < j < |r| + 1 ensures ([h] + r)[i] <= ([h] + r)[j] {
      if i == 0 {
        assert ([h] + r)[j] == r[j - 1];
      } else {
        assert ([h] + r)[i] == r[i - 1] && ([h] + r)[j] == r[j - 1];
      }
    }
  }

  /** Every element of `r` is one of `s`'s or `x`. */
  lemma ElementsBound(x: int, s: seq<int>, r: seq<int>, lo: int)
    requires multiset(r) == multiset(s) + multiset{x}
    requires lo <= x && forall k :: 0 <= k < |s| ==> lo <= s[k]
    ensures forall k :: 0 <= k < |r| ==> lo <= r[k]
  {
    forall k | 0 <= k < |r| ensures lo <= r[k] {
      assert r[k] in multiset(r);
      if r[k] != x {
        assert r[k] in multiset(s);
        var j :| 0 <= j < |s| && s[j] == r[k];
      }
    }
  }

  lemma {:induction false} InsertSpec(x: int, s: seq<int>)
    requires Ascending(s)
    ensures Ascending(Insert(x, s))
    ensures multiset(Insert(x, s)) == multiset(s) + multiset{x}
    decreases |s|
  {
    if s == [] || x <= s[0] {
      AscendingCons(x, s);
    } else {
      var t := s[1..];
      assert s == [s[0]] + t;
      InsertSpec(x, t);
      var r := Insert(x, t);
      ElementsBound(x, t, r, s[0]);
      AscendingCons(s[0], r);
    }
  }

  /** `sorted` returns its argument rearranged in ascending order. */
  lemma {:induction false} SortSpec(s: seq<int>)
    ensures Ascending(Sort(s))
    ensures multiset(Sort(s)) == multiset(s)
    decreases |s|
  {
    if s != [] {
      SortSpec(s[1..]);
      InsertSpec(s[0], Sort(s[1..]));
      assert s == [s[0]] + s[1..];
    }
  }

  /** The head of an ascending sequence is its least element. */
  lemma HeadIsLeast(a: seq<int>, y: int)
    requires Ascending(a) && a != [] && y in multiset(a)
    ensures a[0] <= y
  {
    var j :| 0 <= j < |a| && a[j] == y;
  }

  lemma AscendingTail(a: seq<int>)
    requires Ascending(a) && a != []
    ensures Ascending(a[1..])
  {
    forall i, j | 0 <= i < j < |a| - 1 ensures a[1..][i] <= a[1..][j] {
      assert a[1..][i] == a[i + 1] && a[1..][j] == a[j + 1];
    }
  }

  /** Two ascending sequences with the same elements start alike and continue with the same elements. */
  lemma SameHeads(a: seq<int>, b: seq<int>)
    requires Ascending(a) && Ascending(b) && multiset(a) == multiset(b) && a != []
    ensures b != [] && a[0] == b[0] && multiset(a[1..]) == multiset(b[1..])
  {
    assert |b| == |multiset(b)| == |multiset(a)| == |a|;
    assert a[0] in multiset(a) && b[0] in multiset(b);
    HeadIsLeast(a, b[0]);
    HeadIsLeast(b, a[0]);
    MultisetTail(a);
    MultisetTail(b);
  }

  lemma MultisetTail(a: seq<int>)
    requires a != []
    ensures multiset(a[1..]) == multiset(a) - multiset{a[0]}
  {
    assert a == [a[0]] + a[1..];
  }

  /** Two ascending sequences with the same elements are equal. */
  lemma {:induction false} AscendingUnique(a: seq<int>, b: seq<int>)
    requires Ascending(a) && Ascending(b) && multiset(a) == multiset(b)
    ensures a == b
    decreases |a|
  {
    if a == [] {
      assert |b| == |multiset(b)| == 0;
    } else {
      SameHeads(a, b);
      AscendingTail(a);
      AscendingTail(b);
      AscendingUnique(a[1..], b[1..]);
      assert a == [a[0]] + a[1..];
      assert b == [b[0]] + b[1..];
    }
  }

  /** `sorted` depends only on which elements it is given, not on their order. */
  lemma SortIgnoresOrder(s: seq<int>, t: seq<int>)
    requires multiset(s) == multiset(t)
    ensures Sort(s) == Sort(t)
  {
    SortSpec(s);
    SortSpec(t);
    AscendingUnique(Sort(s), Sort(t));
  }
}
