/** The `List<T>` operations the docking code applies to the shared lists
    (`Submarine.DockedTo`, `Item.linkedTo`, `WayPoint.linkedTo`), on `seq`. */
module Lists {

  /** No element occurs twice. */
  predicate NoDup<T(==)>(s: seq<T>) {
    forall i, j :: 0 <= i < j < |s| ==> s[i] != s[j]
  }

  /** `List.IndexOf(x)` on a list holding `x`: the position of its first
      occurrence. */
  function FirstIndex<T(==)>(s: seq<T>, x: T): (k: nat)
    requires x in s
    ensures k < |s| && s[k] == x
    ensures forall i :: 0 <= i < k ==> s[i] != x
  {
    if s[0] == x then 0 else 1 + FirstIndex(s[1..], x)
  }

  /** `List.Remove(x)`: `RemoveAt(IndexOf(x))` when `x` is present, so the
      first occurrence goes and the rest keep their order. */
  function RemoveFirst<T(==)>(s: seq<T>, x: T): (r: seq<T>)
    ensures x !in s ==> r == s
    ensures x in s ==> r == s[..FirstIndex(s, x)] + s[FirstIndex(s, x) + 1..]
    ensures x in s ==> |r| == |s| - 1
    ensures multiset(r) == multiset(s) - multiset{x}
  {
    if x in s then
      var k := FirstIndex(s, x);
      assert s == s[..k] + [x] + s[k + 1..];
      RemoveAt(s, k)
    else s
  }

  /** `List.RemoveAt(i)`. */
  function RemoveAt<T>(s: seq<T>, i: nat): (r: seq<T>)
    requires i < |s|
    ensures |r| == |s| - 1
    ensures forall k :: 0 <= k < i ==> r[k] == s[k]
    ensures forall k :: i <= k < |r| ==> r[k] == s[k + 1]
  {
    s[..i] + s[i + 1..]
  }

  /** `if (!list.Contains(x)) list.Add(x)`. */
  function AddIfAbsent<T(==)>(s: seq<T>, x: T): (r: seq<T>)
    ensures x in r
    ensures forall y :: y in s ==> y in r
    ensures forall y :: y in r ==> y in s || y == x
  {
    if x in s then s else s + [x]
  }

  /** In a list without duplicates an element that is present occurs
      exactly once. */
  lemma {:induction false} NoDupOccursOnce<T>(s: seq<T>, x: T)
    requires NoDup(s) && x in s
    ensures multiset(s)[x] == 1
  {
    if s[0] == x {
      assert s == [s[0]] + s[1..];
      assert x !in s[1..];
    } else {
      assert s == [s[0]] + s[1..];
      NoDupOccursOnce(s[1..], x);
    }
  }

  /** A guarded add keeps a list free of duplicates, so the element it adds
      is then present exactly once. */
  lemma AddIfAbsentOnce<T>(s: seq<T>, x: T)
    requires NoDup(s)
    ensures NoDup(AddIfAbsent(s, x))
    ensures multiset(AddIfAbsent(s, x))[x] == 1
  {
    NoDupOccursOnce(AddIfAbsent(s, x), x);
  }

  lemma NoDupTail<T>(s: seq<T>)
    requires NoDup(s) && |s| > 0
    ensures NoDup(s[1..]) && s[0] !in s[1..]
  {
    forall i, j | 0 <= i < j < |s[1..]| ensures s[1..][i] != s[1..][j] {
      assert s[1..][i] == s[i + 1] && s[1..][j] == s[j + 1];
    }
  }

  lemma NoDupCons<T>(x: T, s: seq<T>)
    requires NoDup(s) && x !in s
    ensures NoDup([x] + s)
  {
    var r := [x] + s;
    forall i, j | 0 <= i < j < |r| ensures r[i] != r[j] {
      assert r[j] == s[j - 1];
      if i > 0 { assert r[i] == s[i - 1]; }
    }
  }

  /** Removing the element of a list without duplicates removes it entirely,
      and keeps the list free of duplicates. */
  lemma RemoveFirstNoDup<T>(s: seq<T>, x: T)
    requires NoDup(s)
    ensures NoDup(RemoveFirst(s, x))
    ensures x !in RemoveFirst(s, x)
  {
    if x in s {
      var k := FirstIndex(s, x);
      var r := RemoveFirst(s, x);
      assert r == RemoveAt(s, k);
      forall i | 0 <= i < |r| ensures r[i] == s[if i < k then i else i + 1] {
      }
      forall i, j | 0 <= i < j < |r| ensures r[i] != r[j] {
        assert r[i] == s[if i < k then i else i + 1];
        assert r[j] == s[if j < k then j else j + 1];
      }
      forall i | 0 <= i < |r| ensures r[i] != x {
        assert r[i] == s[if i < k then i else i + 1];
      }
    }
  }

}
