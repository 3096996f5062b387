/**
 Array.prototype.sort with a comparator, as a stable insertion sort, and the facts every
 caller of it relies on: the result is a sorted permutation, and it is the only one when no
 two distinct elements compare equal.

 A comparator is given as "does not come after": `le(x, y)` stands for `compare(x, y) <= 0`.
 */
module Sorting {
  import opened Collections

  ghost predicate TotalPreorder<T(!new)>(le: (T, T) -> bool) {
    && (forall x, y :: le(x, y) || le(y, x))
    && (forall x, y, z :: le(x, y) && le(y, z) ==> le(x, z))
  }

  ghost predicate SortedBy<T>(s: seq<T>, le: (T, T) -> bool) {
    forall i, j :: 0 <= i < j < |s| ==> le(s[i], s[j])
  }

  /** No two distinct elements of `s` compare equal. */
  ghost predicate AntisymmetricOn<T>(s: seq<T>, le: (T, T) -> bool) {
    forall x, y :: x in s && y in s && le(x, y) && le(y, x) ==> x == y
  }

  function Insert<T>(x: T, s: seq<T>, le: (T, T) -> bool): seq<T> {
    if s == [] then [x]
    else if le(x, s[0]) then [x] + s
    else [s[0]] + Insert(x, s[1..], le)
  }

  function SortBy<T>(s: seq<T>, le: (T, T) -> bool): seq<T> {
    if s == [] then [] else Insert(s[0], SortBy(s[1..], le), le)
  }

  lemma {:induction false} InsertPermutes<T>(x: T, s: seq<T>, le: (T, T) -> bool)
    ensures multiset(Insert(x, s, le)) == multiset{x} + multiset(s)
  {
    if s == [] {
    } else if le(x, s[0]) {
    } else {
      InsertPermutes(x, s[1..], le);
      assert s == [s[0]] + s[1..];
    }
  }

  lemma {:induction false} SortPermutes<T>(s: seq<T>, le: (T, T) -> bool)
    ensures multiset(SortBy(s, le)) == multiset(s)
  {
    if s == [] {
    } else {
      SortPermutes(s[1..], le);
      InsertPermutes(s[0], SortBy(s[1..], le), le);
      assert s == [s[0]] + s[1..];
    }
  }

  lemma SortElements<T>(s: seq<T>, le: (T, T) -> bool)
    ensures |SortBy(s, le)| == |s|
    ensures forall x :: x in SortBy(s, le) <==> x in s
  {
    SortPermutes(s, le);
    SameElements(SortBy(s, le), s);
  }

  lemma {:induction false} InsertSorts<T(!new)>(x: T, s: seq<T>, le: (T, T) -> bool)
    requires TotalPreorder(le) && SortedBy(s, le)
    ensures SortedBy(Insert(x, s, le), le)
  {
    if s == [] {
    } else if le(x, s[0]) {
      forall i, j | 0 <= i < j < |s| + 1 ensures le(([x] + s)[i], ([x] + s)[j]) {
        if i == 0 && j > 1 { assert le(s[0], s[j - 1]); }
      }
    } else {
      var r := Insert(x, s[1..], le);
      InsertSorts(x, s[1..], le);
      InsertPermutes(x, s[1..], le);
      forall y | y in r ensures le(s[0], y) {
        assert y in multiset(r);
        if y != x {
          assert y in multiset(s[1..]);
          var k :| 0 <= k < |s[1..]| && s[1..][k] == y;
          assert le(s[0], s[k + 1]);
        }
      }
    }
  }

  lemma {:induction false} SortSorts<T(!new)>(s: seq<T>, le: (T, T) -> bool)
    requires TotalPreorder(le)
    ensures SortedBy(SortBy(s, le), le)
  {
    if s == [] {
    } else {
      SortSorts(s[1..], le);
      InsertSorts(s[0], SortBy(s[1..], le), le);
    }
  }

  lemma FirstIsLeast<T(!new)>(s: seq<T>, le: (T, T) -> bool, x: T)
    requires TotalPreorder(le) && x in s
    ensures SortBy(s, le) != [] && SortBy(s, le)[0] in s && le(SortBy(s, le)[0], x)
  {
    var sorted := SortBy(s, le);
    SortSorts(s, le);
    SortElements(s, le);
    assert sorted[0] in sorted;
    var i :| 0 <= i < |sorted| && sorted[i] == x;
    assert i == 0 || le(sorted[0], sorted[i]);
  }

  lemma SortedHeads<T>(a: seq<T>, b: seq<T>, le: (T, T) -> bool)
    requires SortedBy(a, le) && SortedBy(b, le)
    requires a != [] && b != [] && a[0] in b && b[0] in a
    requires forall x :: x in a ==> le(x, x)
    ensures le(a[0], b[0])
  {
    var i :| 0 <= i < |a| && a[i] == b[0];
    if i > 0 { assert le(a[0], a[i]); }
  }

  ghost predicate Sorted<T>(s: seq<T>, le: (T, T) -> bool) {
    SortedBy(s, le) && AntisymmetricOn(s, le) && forall x :: x in s ==> le(x, x)
  }

  lemma SortedTail<T>(s: seq<T>, le: (T, T) -> bool)
    requires Sorted(s, le) && s != []
    ensures Sorted(s[1..], le)
  {
    assert forall x :: x in s[1..] ==> x in s;
  }

  lemma SortedSameHead<T>(a: seq<T>, b: seq<T>, le: (T, T) -> bool)
    requires Sorted(a, le) && SortedBy(b, le) && a != [] && b != []
    requires a[0] in b && b[0] in a
    requires forall x :: x in b ==> le(x, x)
    ensures a[0] == b[0]
  {
    SortedHeads(a, b, le);
    SortedHeads(b, a, le);
  }

  lemma SameLengthAndHeads<T>(a: seq<T>, b: seq<T>)
    requires multiset(a) == multiset(b)
    ensures |a| == |b|
    ensures a != [] ==> a[0] in b && b[0] in a
  {
    SameElements(a, b);
    if a != [] { assert a[0] in a && b[0] in b; }
  }

  lemma SameTails<T>(a: seq<T>, b: seq<T>)
    requires multiset(a) == multiset(b) && a != [] && b != [] && a[0] == b[0]
    ensures multiset(a[1..]) == multiset(b[1..])
  {
    TailMultiset(a);
    TailMultiset(b);
  }

  lemma HeadAndTail<T>(a: seq<T>, b: seq<T>)
    requires a != [] && b != [] && a[0] == b[0] && a[1..] == b[1..]
    ensures a == b
  {
    assert a == [a[0]] + a[1..] && b == [b[0]] + b[1..];
  }

  /** A sorted arrangement is unique when distinct elements never compare equal. */
  lemma {:induction false} SortedUnique<T>(a: seq<T>, b: seq<T>, le: (T, T) -> bool)
    requires Sorted(a, le) && Sorted(b, le)
    requires multiset(a) == multiset(b)
    ensures a == b
    decreases |a|
  {
    SameLengthAndHeads(a, b);
    if a != [] {
      SortedSameHead(a, b, le);
      SameTails(a, b);
      SortedTail(a, le);
      SortedTail(b, le);
      SortedUnique(a[1..], b[1..], le);
      HeadAndTail(a, b);
    }
  }

  lemma SortedMeansSorted<T(!new)>(s: seq<T>, t: seq<T>, le: (T, T) -> bool)
    requires TotalPreorder(le) && AntisymmetricOn(s, le) && multiset(s) == multiset(t)
    ensures Sorted(SortBy(t, le), le)
  {
    SortSorts(t, le);
    SortElements(t, le);
    SameElements(s, t);
  }

  /** The order in which elements were collected does not show after a sort. */
  lemma SortForgetsOrder<T(!new)>(s: seq<T>, t: seq<T>, le: (T, T) -> bool)
    requires TotalPreorder(le) && AntisymmetricOn(s, le)
    requires multiset(s) == multiset(t)
    ensures SortBy(s, le) == SortBy(t, le)
  {
    SortedMeansSorted(s, s, le);
    SortedMeansSorted(s, t, le);
    SortPermutes(s, le);
    SortPermutes(t, le);
    SortedUnique(SortBy(s, le), SortBy(t, le), le);
  }

  lemma {:induction false} SortKeepsSorted<T(!new)>(s: seq<T>, le: (T, T) -> bool)
    requires SortedBy(s, le)
    ensures SortBy(s, le) == s
  {
    if s == [] {
    } else {
      SortKeepsSorted(s[1..], le);
      if |s| > 1 { assert le(s[0], s[1]); }
    }
  }

  lemma {:induction false} FilterSorted<T>(s: seq<T>, p: T -> bool, le: (T, T) -> bool)
    requires SortedBy(s, le)
    ensures SortedBy(Filter(s, p), le)
  {
    if s == [] {
    } else {
      FilterSorted(s[1..], p, le);
      FilterElements(s[1..], p);
      assert s == [s[0]] + s[1..];
      forall y | y in Filter(s[1..], p) ensures le(s[0], y) {
        FilterMember(s[1..], p, y);
        var k :| 0 <= k < |s[1..]| && s[1..][k] == y;
        assert le(s[0], s[k + 1]);
      }
    }
  }

  lemma FilterKeepsSorted<T>(s: seq<T>, p: T -> bool, le: (T, T) -> bool)
    requires Sorted(s, le)
    ensures Sorted(Filter(s, p), le)
  {
    FilterSorted(s, p, le);
    forall x | x in Filter(s, p) ensures x in s { FilterMember(s, p, x); }
  }

  /** Sorting before a filter or after it gives the same list. */
  lemma SortFilter<T(!new)>(s: seq<T>, p: T -> bool, le: (T, T) -> bool)
    requires TotalPreorder(le) && AntisymmetricOn(s, le)
    ensures Filter(SortBy(s, le), p) == SortBy(Filter(s, p), le)
  {
    var a, b := Filter(SortBy(s, le), p), SortBy(Filter(s, p), le);
    SortedMeansSorted(s, s, le);
    FilterKeepsSorted(SortBy(s, le), p, le);
    FilterElements(s, p);
    SortedMeansSorted(Filter(s, p), Filter(s, p), le);
    SortPermutes(s, le);
    SortPermutes(Filter(s, p), le);
    assert multiset(a) == multiset(b) by {
      forall x ensures multiset(a)[x] == multiset(b)[x] {
        FilterMultiset(SortBy(s, le), p, x);
        FilterMultiset(s, p, x);
      }
    }
    SortedUnique(a, b, le);
  }

  /** In a sorted list, the elements with a property that is never regained are the first ones. */
  lemma {:induction false} FilterPrefix<T>(s: seq<T>, p: T -> bool, le: (T, T) -> bool)
    requires SortedBy(s, le) && forall x, y :: x in s && y in s && le(x, y) && p(y) ==> p(x)
    ensures var k := |Filter(s, p)|; k <= |s| && Filter(s, p) == s[..k] && forall i :: 0 <= i < |s| ==> (p(s[i]) <==> i < k)
    decreases |s|
  {
    if s != [] {
      assert s == [s[0]] + s[1..];
      FilterPrefix(s[1..], p, le);
      forall i | 0 <= i < |s| ensures p(s[i]) ==> p(s[0]) {
        if i > 0 { assert le(s[0], s[i]) && s[i] in s && s[0] in s; }
      }
      forall i | 0 < i < |s| ensures s[i] == s[1..][i - 1] {}
    }
  }

  /** ... and the elements without it are the rest. */
  lemma {:induction false} FilterSuffix<T>(s: seq<T>, p: T -> bool, q: T -> bool, le: (T, T) -> bool)
    requires SortedBy(s, le) && forall x, y :: x in s && y in s && le(x, y) && p(y) ==> p(x)
    requires forall x :: x in s ==> q(x) == !p(x)
    ensures var k := |Filter(s, p)|; k <= |s| && Filter(s, q) == s[k..]
    decreases |s|
  {
    if s != [] {
      assert s == [s[0]] + s[1..];
      FilterPrefix(s, p, le);
      FilterSuffix(s[1..], p, q, le);
      if !p(s[0]) {
        FilterPrefix(s[1..], p, le);
        assert Filter(s, p) == s[..|Filter(s, p)|];
        assert |Filter(s, p)| == 0;
      }
    }
  }
}
