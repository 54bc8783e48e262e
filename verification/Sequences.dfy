/** Facts about duplicate-free sequences that the lists, the hash chains and the work queue share. */
module Sequences {

  datatype Option<+T> = None | Some(value: T)

  ghost predicate NoDup<T>(s: seq<T>) {
    forall i, j :: 0 <= i < j < |s| ==> s[i] != s[j]
  }

  /** The sequence without any occurrence of `x`; the others keep their order. */
  function Without<T(==, !new)>(s: seq<T>, x: T): (r: seq<T>)
    ensures forall y :: y in r <==> y in s && y != x
    ensures |r| <= |s|
    ensures x !in s ==> r == s
  {
    if s == [] then []
    else if s[0] == x then Without(s[1..], x)
    else
      assert forall y :: y in s <==> y == s[0] || y in s[1..];
      [s[0]] + Without(s[1..], x)
  }

  lemma {:induction false} WithoutAt<T(!new)>(s: seq<T>, k: nat)
    requires NoDup(s) && k < |s|
    ensures Without(s, s[k]) == s[..k] + s[k + 1..]
  {
    if k == 0 {
      assert s[0] !in s[1..];
    } else {
      WithoutAt(s[1..], k - 1);
      assert s[1..][..k - 1] == s[1..k];
      assert s[1..][k..] == s[k + 1..];
      assert [s[0]] + s[1..k] == s[..k];
    }
  }

  lemma WithoutHead<T(!new)>(s: seq<T>)
    requires NoDup(s) && s != []
    ensures Without(s, s[0]) == s[1..]
  {
    WithoutAt(s, 0);
  }

  /** Deleting a member leaves one element fewer and no duplicate. */
  lemma WithoutNoDup<T(!new)>(s: seq<T>, x: T)
    requires NoDup(s)
    ensures NoDup(Without(s, x))
    ensures |Without(s, x)| == if x in s then |s| - 1 else |s|
  {
    if x in s {
      var k :| 0 <= k < |s| && s[k] == x;
      WithoutAt(s, k);
    }
  }

  /** An order on the elements survives deletion. */
  lemma WithoutSub<T(!new)>(s: seq<T>, x: T, i: nat, j: nat) returns (i': nat, j': nat)
    requires NoDup(s) && i < j < |Without(s, x)|
    ensures i' < j' < |s| && s[i'] == Without(s, x)[i] && s[j'] == Without(s, x)[j]
  {
    i', j' := i, j;
    if x in s {
      var k :| 0 <= k < |s| && s[k] == x;
      WithoutAt(s, k);
      i' := if i < k then i else i + 1;
      j' := if j < k then j else j + 1;
    }
  }

  lemma SnocNoDup<T>(s: seq<T>, x: T)
    requires NoDup(s) && x !in s
    ensures NoDup(s + [x]) && NoDup([x] + s)
  {
  }

  lemma WithoutLast<T(!new)>(s: seq<T>, x: T)
    requires NoDup(s) && x !in s
    ensures Without(s + [x], x) == s
  {
    SnocNoDup(s, x);
    assert (s + [x])[|s|] == x;
    WithoutAt(s + [x], |s|);
  }

  /** A duplicate-free sequence is as long as the set of its elements. */
  lemma {:induction false} NoDupSize<T(!new)>(s: seq<T>, r: set<T>)
    requires NoDup(s) && forall x :: x in s <==> x in r
    ensures |s| == |r|
  {
    if s == [] {
      assert r == {};
    } else {
      assert s[0] !in s[1..];
      NoDupSize(s[1..], r - {s[0]});
    }
  }
}
