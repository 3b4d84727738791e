/**
  Sorting by a "less" function, as Go's sort package is given one, and the
  lexicographic order of strings. Sorting is stable: equal elements keep their
  order.
*/
module Ordering {

  ghost predicate Lawful<T(!new)>(less: (T, T) -> bool) {
    && (forall x :: !less(x, x))
    && (forall x, y, z :: less(x, y) && less(y, z) ==> less(x, z))
  }

  function InsertBy<T>(less: (T, T) -> bool, x: T, sorted: seq<T>): seq<T> {
    if sorted == [] || !less(sorted[0], x) then [x] + sorted
    else [sorted[0]] + InsertBy(less, x, sorted[1..])
  }

  function SortBy<T>(less: (T, T) -> bool, s: seq<T>): seq<T> {
    if s == [] then [] else InsertBy(less, s[0], SortBy(less, s[1..]))
  }

  ghost predicate Ascending<T>(less: (T, T) -> bool, s: seq<T>) {
    forall i, j :: 0 <= i < j < |s| ==> less(s[i], s[j])
  }

  ghost predicate Comparable<T>(less: (T, T) -> bool, s: seq<T>) {
    forall i, j :: 0 <= i < j < |s| ==> less(s[i], s[j]) || less(s[j], s[i])
  }

  lemma {:induction false} InsertPermutes<T>(less: (T, T) -> bool, x: T, sorted: seq<T>)
    ensures multiset(InsertBy(less, x, sorted)) == multiset{x} + multiset(sorted)
  {
    if sorted != [] {
      InsertPermutes(less, x, sorted[1..]);
      assert sorted == [sorted[0]] + sorted[1..];
    }
  }

  lemma {:induction false} SortSameElements<T>(less: (T, T) -> bool, s: seq<T>)
    ensures multiset(SortBy(less, s)) == multiset(s)
  {
    if s != [] {
      SortSameElements(less, s[1..]);
      InsertPermutes(less, s[0], SortBy(less, s[1..]));
      assert s == [s[0]] + s[1..];
    }
  }

  lemma {:induction false} SameMembers<T>(a: seq<T>, b: seq<T>)
    requires multiset(a) == multiset(b)
    ensures |a| == |b| && forall x :: x in a <==> x in b
  {
    assert |multiset(a)| == |multiset(b)|;
    forall x
      ensures x in a <==> x in b
    {
      assert x in a <==> x in multiset(a);
    }
  }

  lemma {:induction false} SortPermutes<T>(less: (T, T) -> bool, s: seq<T>)
    ensures multiset(SortBy(less, s)) == multiset(s)
    ensures forall x :: x in SortBy(less, s) <==> x in s
    ensures |SortBy(less, s)| == |s|
  {
    SortSameElements(less, s);
    SameMembers(SortBy(less, s), s);
  }

  lemma {:induction false} InsertAscends<T(!new)>(less: (T, T) -> bool, x: T, sorted: seq<T>)
    requires Lawful(less) && Ascending(less, sorted)
    requires forall i :: 0 <= i < |sorted| ==> less(sorted[i], x) || less(x, sorted[i])
    ensures Ascending(less, InsertBy(less, x, sorted))
  {
    if sorted == [] {
    } else if !less(sorted[0], x) {
      forall i | 0 < i < |sorted|
        ensures less(x, sorted[i])
      {
        assert less(x, sorted[0]) && less(sorted[0], sorted[i]);
      }
    } else {
      InsertAscends(less, x, sorted[1..]);
      InsertPermutes(less, x, sorted[1..]);
      var r := InsertBy(less, x, sorted[1..]);
      forall i | 0 <= i < |r|
        ensures less(sorted[0], r[i])
      {
        assert r[i] in multiset(r);
        assert r[i] == x || r[i] in sorted[1..];
      }
    }
  }

  lemma {:induction false} SortAscends<T(!new)>(less: (T, T) -> bool, s: seq<T>)
    requires Lawful(less) && Comparable(less, s)
    ensures Ascending(less, SortBy(less, s))
  {
    if s != [] {
      SortAscends(less, s[1..]);
      SortPermutes(less, s[1..]);
      var tail := SortBy(less, s[1..]);
      forall i | 0 <= i < |tail|
        ensures less(tail[i], s[0]) || less(s[0], tail[i])
      {
        assert tail[i] in s[1..];
        var j :| 0 <= j < |s[1..]| && s[1..][j] == tail[i];
        assert s[j + 1] == tail[i];
      }
      InsertAscends(less, s[0], tail);
    }
  }

  /** A strictly ascending arrangement of given elements is unique. */
  lemma {:induction false} AscendingIsUnique<T(!new)>(less: (T, T) -> bool, a: seq<T>, b: seq<T>)
    requires Lawful(less) && Ascending(less, a) && Ascending(less, b)
    requires forall x :: x in a <==> x in b
    ensures a == b
  {
    NoneLeft(a, b);
    NoneLeft(b, a);
    if a != [] {
      assert a[0] in b;
      HeadIsLeast(less, a, b);
      HeadIsLeast(less, b, a);
      forall x
        ensures x in a[1..] <==> x in b[1..]
      {
        TailMembers(less, a, x);
        TailMembers(less, b, x);
      }
      AscendingIsUnique(less, a[1..], b[1..]);
    }
  }

  lemma {:induction false} NoneLeft<T>(a: seq<T>, b: seq<T>)
    requires forall x :: x in a ==> x in b
    ensures b == [] ==> a == []
  {
    if a != [] {
      assert a[0] in b;
    }
  }

  lemma {:induction false} HeadIsLeast<T(!new)>(less: (T, T) -> bool, a: seq<T>, b: seq<T>)
    requires Lawful(less) && Ascending(less, a) && a != [] && b != []
    requires b[0] in a
    ensures a[0] == b[0] || less(a[0], b[0])
  {
  }

  lemma {:induction false} TailMembers<T(!new)>(less: (T, T) -> bool, a: seq<T>, x: T)
    requires Lawful(less) && Ascending(less, a) && a != []
    ensures x in a[1..] <==> x in a && x != a[0]
  {
    if x in a && x != a[0] {
      var i :| 0 <= i < |a| && a[i] == x;
      assert a[1..][i - 1] == x;
    }
  }

  // ---- strings ---------------------------------------------------------------------

  /** Go's `a < b` on strings. */
  predicate Before(a: string, b: string) {
    b != [] && (a == [] || a[0] < b[0] || (a[0] == b[0] && Before(a[1..], b[1..])))
  }

  /** The strings agree up to some place, where a ends or has the smaller character. */
  ghost predicate ComesFirst(a: string, b: string) {
    exists k :: 0 <= k <= |a| && k < |b| && a[..k] == b[..k] && (k == |a| || a[k] < b[k])
  }

  lemma {:induction false} BeforeMeans(a: string, b: string)
    ensures Before(a, b) <==> ComesFirst(a, b)
  {
    if b != [] {
      if a == [] || a[0] < b[0] {
        assert a[..0] == b[..0];
      } else if a[0] == b[0] {
        BeforeMeans(a[1..], b[1..]);
        if k :| 0 <= k <= |a[1..]| && k < |b[1..]| && a[1..][..k] == b[1..][..k] && (k == |a[1..]| || a[1..][k] < b[1..][k]) {
          assert a[..k + 1] == [a[0]] + a[1..][..k] && b[..k + 1] == [b[0]] + b[1..][..k];
        }
        if k :| 0 < k <= |a| && k < |b| && a[..k] == b[..k] && (k == |a| || a[k] < b[k]) {
          assert a[1..][..k - 1] == a[..k][1..] && b[1..][..k - 1] == b[..k][1..];
        }
      } else if k :| 0 <= k <= |a| && k < |b| && a[..k] == b[..k] && (k == |a| || a[k] < b[k]) {
        if k > 0 {
          assert a[..k][0] == b[..k][0];
        }
      }
    }
  }

  lemma BeforeIrreflexive(a: string)
    ensures !Before(a, a)
  {
  }

  lemma {:induction false} BeforeTransitive(a: string, b: string, c: string)
    requires Before(a, b) && Before(b, c)
    ensures Before(a, c)
  {
    if a != [] && a[0] == b[0] && b[0] == c[0] {
      BeforeTransitive(a[1..], b[1..], c[1..]);
    }
  }

  lemma {:induction false} BeforeTotal(a: string, b: string)
    ensures a == b || Before(a, b) || Before(b, a)
  {
    if a != [] && b != [] && a[0] == b[0] {
      BeforeTotal(a[1..], b[1..]);
      if a[1..] == b[1..] {
        assert a == [a[0]] + a[1..] && b == [b[0]] + b[1..];
      }
    }
  }

  lemma {:induction false} BeforeLawful()
    ensures Lawful(Before)
  {
    forall x
      ensures !Before(x, x)
    {
      BeforeIrreflexive(x);
    }
    forall x, y, z | Before(x, y) && Before(y, z)
      ensures Before(x, z)
    {
      BeforeTransitive(x, y, z);
    }
  }
}
