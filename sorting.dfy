/** `Array.prototype.sort` with a comparator that is a total preorder.
    ECMAScript 2019 and later require the sort to be stable, so the result
    is determined by the comparator; it is computed here by a stable
    insertion sort on values. */
module Sorting {

  /** `le(a, b)` holds when the comparator does not put `a` after `b`. */
  ghost predicate TotalPreorder<T(!new)>(le: (T, T) -> bool) {
    && (forall a, b :: le(a, b) || le(b, a))
    && (forall a, b, c :: le(a, b) && le(b, c) ==> le(a, c))
  }

  predicate SortedBy<T>(s: seq<T>, le: (T, T) -> bool) {
    forall i, j :: 0 <= i < j < |s| ==> le(s[i], s[j])
  }

  /** Places `x` after every element of the sorted `s` that may precede it,
      so that equal elements keep their order. */
  function Insert<T(!new)>(x: T, s: seq<T>, le: (T, T) -> bool): (r: seq<T>)
    requires TotalPreorder(le)
    requires SortedBy(s, le)
    ensures multiset(r) == multiset(s) + multiset{x}
    ensures SortedBy(r, le)
    ensures |r| == |s| + 1
  {
    if |s| == 0 then [x]
    else
      var last := s[|s| - 1];
      if le(last, x) then
        assert multiset(s + [x]) == multiset(s) + multiset{x};
        AppendSorted(s, x, le);
        s + [x]
      else
        var front := s[..|s| - 1];
        assert s == front + [last];
        assert forall k :: 0 <= k < |front| ==> front[k] == s[k];
        var r' := Insert(x, front, le);
        assert le(x, last);
        BoundedByLast(x, front, r', last, le);
        AppendSorted(r', last, le);
        assert multiset(r' + [last]) == multiset(r') + multiset{last};
        r' + [last]
  }

  /** Appending an element that every element may precede keeps a sequence sorted. */
  lemma AppendSorted<T>(s: seq<T>, x: T, le: (T, T) -> bool)
    requires SortedBy(s, le)
    requires forall i :: 0 <= i < |s| ==> le(s[i], x)
    ensures SortedBy(s + [x], le)
  {
    var r := s + [x];
    forall i, j | 0 <= i < j < |r|
      ensures le(r[i], r[j])
    {
      if j < |s| {
        assert r[i] == s[i] && r[j] == s[j];
      } else {
        assert r[i] == s[i] && r[j] == x;
      }
    }
  }

  /** If `x` and every element of `front` may precede `last`, so may every
      element of a permutation of `front + [x]`. */
  lemma BoundedByLast<T>(x: T, front: seq<T>, r: seq<T>, last: T, le: (T, T) -> bool)
    requires multiset(r) == multiset(front) + multiset{x}
    requires le(x, last)
    requires forall k :: 0 <= k < |front| ==> le(front[k], last)
    ensures forall i :: 0 <= i < |r| ==> le(r[i], last)
  {
    forall i | 0 <= i < |r|
      ensures le(r[i], last)
    {
      assert r[i] in multiset(r);
      if r[i] != x {
        assert r[i] in multiset(front);
        var k :| 0 <= k < |front| && front[k] == r[i];
      }
    }
  }

  /** The sorted permutation `Array.prototype.sort` produces. */
  function Sort<T(!new)>(s: seq<T>, le: (T, T) -> bool): (r: seq<T>)
    requires TotalPreorder(le)
    ensures multiset(r) == multiset(s)
    ensures SortedBy(r, le)
    ensures |r| == |s|
  {
    if |s| == 0 then []
    else
      assert s == s[..|s| - 1] + [s[|s| - 1]];
      Insert(s[|s| - 1], Sort(s[..|s| - 1], le), le)
  }

  /** The comparator reports neither element before the other. */
  predicate Equivalent<T>(a: T, b: T, le: (T, T) -> bool) {
    le(a, b) && le(b, a)
  }

  /** The elements of `s` equivalent to `c`, in their order in `s`. */
  function Ties<T>(s: seq<T>, c: T, le: (T, T) -> bool): seq<T> {
    if |s| == 0 then []
    else Ties(s[..|s| - 1], c, le) + (if Equivalent(s[|s| - 1], c, le) then [s[|s| - 1]] else [])
  }

  /** Ties after an appended element are the earlier ties followed by that element, if it is one. */
  lemma TiesAppend<T>(s: seq<T>, x: T, c: T, le: (T, T) -> bool)
    ensures Ties(s + [x], c, le) == Ties(s, c, le) + (if Equivalent(x, c, le) then [x] else [])
  {
    assert (s + [x])[..|s|] == s;
  }

  /** Inserting `x` adds it at the end of its ties: no element equivalent to
      it is moved across it. */
  lemma {:induction false} InsertTies<T(!new)>(x: T, s: seq<T>, c: T, le: (T, T) -> bool)
    requires TotalPreorder(le)
    requires SortedBy(s, le)
    ensures Ties(Insert(x, s, le), c, le) == Ties(s, c, le) + (if Equivalent(x, c, le) then [x] else [])
    decreases |s|
  {
    if |s| == 0 {
      assert Insert(x, s, le) == [] + [x];
      TiesAppend([], x, c, le);
    } else {
      var last := s[|s| - 1];
      var front := s[..|s| - 1];
      assert s == front + [last];
      if le(last, x) {
        TiesAppend(s, x, c, le);
      } else {
        SortedPrefix(s, le);
        var r' := Insert(x, front, le);
        assert Insert(x, s, le) == r' + [last];
        InsertTies(x, front, c, le);
        TiesAppend(r', last, c, le);
        TiesAppend(front, last, c, le);
        NotBothTied(last, x, c, le);
      }
    }
  }

  /** Dropping the last element keeps a sequence sorted. */
  lemma SortedPrefix<T>(s: seq<T>, le: (T, T) -> bool)
    requires |s| > 0 && SortedBy(s, le)
    ensures SortedBy(s[..|s| - 1], le)
  {
    var front := s[..|s| - 1];
    forall i, j | 0 <= i < j < |front|
      ensures le(front[i], front[j])
    {
      assert front[i] == s[i] && front[j] == s[j];
    }
  }

  /** Two elements both equivalent to `c` may each precede the other. */
  lemma NotBothTied<T(!new)>(a: T, b: T, c: T, le: (T, T) -> bool)
    requires TotalPreorder(le)
    requires !le(a, b)
    ensures !(Equivalent(a, c, le) && Equivalent(b, c, le))
  {
  }

  /** The sort is stable: the elements equivalent to any `c` keep their relative order. */
  lemma {:induction false} SortIsStable<T(!new)>(s: seq<T>, c: T, le: (T, T) -> bool)
    requires TotalPreorder(le)
    ensures Ties(Sort(s, le), c, le) == Ties(s, c, le)
    decreases |s|
  {
    if |s| > 0 {
      var front := s[..|s| - 1];
      SortIsStable(front, c, le);
      InsertTies(s[|s| - 1], Sort(front, le), c, le);
    }
  }

  /** Two elements the comparator puts in the other order are swapped. */
  lemma SortSwapsPair<T(!new)>(a: T, b: T, le: (T, T) -> bool)
    requires TotalPreorder(le)
    requires !le(a, b)
    ensures Sort([a, b], le) == [b, a]
  {
    assert [a, b][..1] == [a];
    assert Sort([a], le) == [a] by {
      assert [a][..0] == [];
    }
  }

  /** A sort keeps every element: membership is unchanged. */
  lemma SortKeepsElements<T(!new)>(s: seq<T>, le: (T, T) -> bool, x: T)
    requires TotalPreorder(le)
    ensures x in Sort(s, le) <==> x in s
  {
    var r := Sort(s, le);
    assert x in r <==> x in multiset(r);
    assert x in s <==> x in multiset(s);
  }
}
