/** Sequence functions shared by the other modules. */
module Sequences {

  /** The last k elements, or all of them when there are fewer: s[len(s)-k:] guarded as the source guards it. */
  function Last<T>(s: seq<T>, k: nat): (r: seq<T>)
    ensures |r| == if |s| <= k then |s| else k
  {
    if |s| <= k then s else s[|s| - k..]
  }

  function Flatten<T>(parts: seq<seq<T>>): seq<T> {
    if parts == [] then [] else parts[0] + Flatten(parts[1..])
  }

  /** Position of the first x, or the length when there is none. */
  function Find<T(==)>(s: seq<T>, x: T): (n: nat)
    ensures n <= |s|
    ensures n < |s| ==> s[n] == x
    ensures forall i :: 0 <= i < n ==> s[i] != x
  {
    if s == [] || s[0] == x then 0
    else
      var n := 1 + Find(s[1..], x);
      assert forall i :: 1 <= i < |s| ==> s[i] == s[1..][i - 1];
      n
  }

  lemma {:induction false} LastOfSuffix<T>(a: seq<T>, b: seq<T>, k: nat)
    requires |b| >= k
    ensures Last(a + b, k) == Last(b, k)
  {
    assert |a + b| > k ==> (a + b)[|a + b| - k..] == b[|b| - k..];
  }

  /** Trimming before more arrives loses nothing that the final trim would keep. */
  lemma {:induction false} LastOfLast<T>(a: seq<T>, b: seq<T>, k: nat)
    ensures Last(Last(a, k) + b, k) == Last(a + b, k)
  {
    if |a| > k {
      var drop := |a| - k;
      LastOfSuffix(a[..drop], a[drop..] + b, k);
      Assoc(a[..drop], a[drop..], b);
      assert a == a[..drop] + a[drop..];
    }
  }

  lemma {:induction false} Assoc<T>(a: seq<T>, b: seq<T>, c: seq<T>)
    ensures a + b + c == a + (b + c)
  {
  }

  lemma {:induction false} FlattenConcat<T>(a: seq<seq<T>>, b: seq<seq<T>>)
    ensures Flatten(a + b) == Flatten(a) + Flatten(b)
  {
    if a == [] {
      assert a + b == b;
    } else {
      FlattenConcat(a[1..], b);
      assert (a + b)[1..] == a[1..] + b;
      Assoc(a[0], Flatten(a[1..]), Flatten(b));
    }
  }

  lemma {:induction false} FlattenSnoc<T>(parts: seq<seq<T>>, k: nat)
    requires k < |parts|
    ensures Flatten(parts[..k + 1]) == Flatten(parts[..k]) + parts[k]
  {
    FlattenConcat(parts[..k], [parts[k]]);
    assert parts[..k + 1] == parts[..k] + [parts[k]];
    assert Flatten([parts[k]]) == parts[k];
  }

  lemma {:induction false} InFlatten<T>(parts: seq<seq<T>>, x: T)
    ensures x in Flatten(parts) <==> exists i :: 0 <= i < |parts| && x in parts[i]
  {
    if parts != [] {
      var rest := parts[1..];
      InFlatten(rest, x);
      if x in Flatten(rest) {
        var i :| 0 <= i < |rest| && x in rest[i];
        assert parts[i + 1] == rest[i];
      }
      if i :| 0 < i < |parts| && x in parts[i] {
        assert rest[i - 1] == parts[i];
      }
    }
  }
}
