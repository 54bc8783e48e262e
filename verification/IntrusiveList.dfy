/** Doubly linked lists threaded through the entry array by index (lib/ssd_cache_mapping.c). */
module IntrusiveLists {
  import opened Sequences
  import opened Works
  import opened Hash

  const NIL: nat := 0x1000_0000 - 1

  /** The largest index that 28 bits can hold. */
  lemma NilIsLargest()
    ensures NIL + 1 == Pow2(28)
  {
    assert Pow2(8) == 256 && Pow2(4) == 16;
    Pow2Sum(8, 8);
    Pow2Sum(16, 8);
    Pow2Sum(24, 4);
  }

  datatype Entry = Entry(
    hashNext: nat, prev: nat, next: nat,
    key: Key,
    pending: bool, dirty: bool, alloc: bool)

  /** `f` is `e` except for the two list links. */
  ghost predicate SameButLinks(e: Entry, f: Entry) {
    f == e.(prev := f.prev, next := f.next)
  }

  ghost predicate IndexOrNil(i: nat, n: nat) {
    i < n || i == NIL
  }

  /** The links of every entry, also the stale ones of an unlisted entry, are indices or nil. */
  ghost predicate LinksInRange(mem: seq<Entry>) {
    |mem| < NIL &&
    forall i :: 0 <= i < |mem| ==> IndexOrNil(mem[i].prev, |mem|) && IndexOrNil(mem[i].next, |mem|)
  }

  ghost function At(s: seq<nat>, i: int): nat {
    if 0 <= i < |s| then s[i] else NIL
  }

  /** The link fields of `mem` thread exactly the sequence `s`, forward and backward. */
  ghost predicate Threads(mem: seq<Entry>, s: seq<nat>) {
    && |mem| < NIL && NoDup(s)
    && (forall i :: 0 <= i < |s| ==> s[i] < |mem|)
    && (forall i {:trigger mem[s[i]]} :: 0 <= i < |s| ==>
          mem[s[i]].next == At(s, i + 1) && mem[s[i]].prev == At(s, i - 1))
  }

  /** A thread depends on the links of its own elements only. */
  lemma ThreadsFrame(mem: seq<Entry>, mem': seq<Entry>, s: seq<nat>)
    requires Threads(mem, s) && |mem'| == |mem|
    requires forall i :: 0 <= i < |mem| && i in s ==>
      mem'[i].next == mem[i].next && mem'[i].prev == mem[i].prev
    ensures Threads(mem', s)
  {
    forall i {:trigger mem'[s[i]]} | 0 <= i < |s|
      ensures mem'[s[i]].next == At(s, i + 1) && mem'[s[i]].prev == At(s, i - 1)
    {
      assert s[i] in s;
      assert mem[s[i]].next == At(s, i + 1);
    }
  }

  /** What following `next`, or `prev`, from index `i` visits in at most `n` steps. */
  ghost function Walk(mem: seq<Entry>, i: nat, n: nat, forward: bool): seq<nat>
    decreases n
  {
    if n == 0 || i >= |mem| then []
    else [i] + Walk(mem, if forward then mem[i].next else mem[i].prev, n - 1, forward)
  }

  function Reversed(s: seq<nat>): seq<nat> {
    if s == [] then [] else [s[|s| - 1]] + Reversed(s[..|s| - 1])
  }

  /** Walking forward from the head visits the list; walking on does not come back. */
  lemma {:induction false} WalkForward(mem: seq<Entry>, s: seq<nat>, i: nat, n: nat)
    requires Threads(mem, s) && i <= |s| && n >= |s| - i
    ensures Walk(mem, At(s, i), n, true) == s[i..]
    decreases |s| - i
  {
    if i < |s| {
      assert mem[s[i]].next == At(s, i + 1);
      WalkForward(mem, s, i + 1, n - 1);
    }
  }

  /** Walking backward from the tail is the mirror image. */
  lemma {:induction false} WalkBackward(mem: seq<Entry>, s: seq<nat>, i: nat, n: nat)
    requires Threads(mem, s) && i <= |s| && n >= i
    ensures Walk(mem, At(s, i - 1), n, false) == Reversed(s[..i])
  {
    if i > 0 {
      assert mem[s[i - 1]].prev == At(s, i - 2);
      WalkBackward(mem, s, i - 1, n - 1);
      assert s[..i][..i - 1] == s[..i - 1];
    }
  }

  lemma ThreadLength(mem: seq<Entry>, s: seq<nat>)
    requires Threads(mem, s)
    ensures |s| <= |mem|
  {
    var members := set i: nat | i in s;
    NoDupSize(s, members);
    SubsetSize(members, |mem|);
  }

  lemma {:induction false} SubsetSize(s: set<nat>, n: nat)
    requires forall i :: i in s ==> i < n
    ensures |s| <= n
  {
    if n > 0 { SubsetSize(s - {n - 1}, n - 1); }
    else { assert s == {}; }
  }

  // ---------- the three ways to rewrite links, entry by entry ----------

  ghost function Pushed(mem: seq<Entry>, h: nat, e: nat, j: nat): Entry
    requires j < |mem|
  {
    if j == e then mem[j].(next := h, prev := NIL)
    else if j == h then mem[j].(prev := e) else mem[j]
  }

  ghost function Appended(mem: seq<Entry>, t: nat, e: nat, j: nat): Entry
    requires j < |mem|
  {
    if j == e then mem[j].(next := NIL, prev := t)
    else if j == t then mem[j].(next := e) else mem[j]
  }

  ghost function Bridged(mem: seq<Entry>, p: nat, n: nat, j: nat): Entry
    requires j < |mem|
  {
    mem[j].(next := if j == p then n else mem[j].next, prev := if j == n then p else mem[j].prev)
  }

  lemma PushThreads(mem: seq<Entry>, mem': seq<Entry>, s: seq<nat>, e: nat)
    requires Threads(mem, s) && e < |mem| == |mem'| && e !in s
    requires forall j :: 0 <= j < |mem| ==> mem'[j] == Pushed(mem, At(s, 0), e, j)
    ensures Threads(mem', [e] + s)
  {
    var r := [e] + s;
    forall i {:trigger mem'[r[i]]} | 0 <= i < |r|
      ensures r[i] < |mem'| && mem'[r[i]].next == At(r, i + 1) && mem'[r[i]].prev == At(r, i - 1)
    {
      if i > 0 { assert mem[s[i - 1]].next == At(s, i); }
    }
  }

  lemma AppendThreads(mem: seq<Entry>, mem': seq<Entry>, s: seq<nat>, e: nat)
    requires Threads(mem, s) && e < |mem| == |mem'| && e !in s
    requires forall j :: 0 <= j < |mem| ==> mem'[j] == Appended(mem, At(s, |s| - 1), e, j)
    ensures Threads(mem', s + [e])
  {
    var r := s + [e];
    forall i {:trigger mem'[r[i]]} | 0 <= i < |r|
      ensures r[i] < |mem'| && mem'[r[i]].next == At(r, i + 1) && mem'[r[i]].prev == At(r, i - 1)
    {
      if i < |s| { assert mem[s[i]].next == At(s, i + 1); }
    }
  }

  /** Where a remaining element `s[m]` points once `s[k]` has been cut out. */
  lemma CutLinks(mem: seq<Entry>, mem': seq<Entry>, s: seq<nat>, k: nat, m: nat)
    requires Threads(mem, s) && k < |s| && m < |s| && m != k && |mem'| == |mem|
    requires mem'[s[m]] == Bridged(mem, At(s, k - 1), At(s, k + 1), s[m])
    ensures mem'[s[m]].next == At(s, if m == k - 1 then m + 2 else m + 1)
    ensures mem'[s[m]].prev == At(s, if m == k + 1 then m - 2 else m - 1)
  {
    assert mem[s[m]].next == At(s, m + 1);
    assert s[m] == At(s, k - 1) <==> m == k - 1;
    assert s[m] == At(s, k + 1) <==> m == k + 1;
  }

  /** The element at `i` of a sequence without its `k`-th element. */
  lemma AtWithout(s: seq<nat>, r: seq<nat>, k: nat, i: int)
    requires k < |s| && r == s[..k] + s[k + 1..]
    ensures At(r, i) == At(s, if i < k then i else i + 1)
  {
  }

  /** Making the two neighbours of the `k`-th element point at each other cuts it out. */
  lemma CutThreads(mem: seq<Entry>, mem': seq<Entry>, s: seq<nat>, k: nat, r: seq<nat>)
    requires Threads(mem, s) && k < |s| && |mem'| == |mem| && r == s[..k] + s[k + 1..] && NoDup(r)
    requires forall j :: 0 <= j < |mem| ==> mem'[j] == Bridged(mem, At(s, k - 1), At(s, k + 1), j)
    ensures Threads(mem', r)
  {
    forall i {:trigger mem'[r[i]]} | 0 <= i < |r|
      ensures r[i] < |mem'| && mem'[r[i]].next == At(r, i + 1) && mem'[r[i]].prev == At(r, i - 1)
    {
      AtWithout(s, r, k, i);
      AtWithout(s, r, k, i - 1);
      AtWithout(s, r, k, i + 1);
      CutLinks(mem, mem', s, k, if i < k then i else i + 1);
    }
  }

  ghost function IndexOf(s: seq<nat>, x: nat): (k: nat)
    requires x in s
    ensures k < |s| && s[k] == x
  {
    var k :| 0 <= k < |s| && s[k] == x;
    k
  }

  lemma NeighboursAt(mem: seq<Entry>, s: seq<nat>, k: nat)
    requires Threads(mem, s) && k < |s|
    ensures mem[s[k]].prev == At(s, k - 1) && mem[s[k]].next == At(s, k + 1)
    ensures Without(s, s[k]) == s[..k] + s[k + 1..] && NoDup(Without(s, s[k]))
    ensures At(s, k - 1) == NIL <==> k == 0
    ensures At(s, k + 1) == NIL <==> k == |s| - 1
  {
    assert mem[s[k]].prev == At(s, k - 1);
    WithoutAt(s, k);
    WithoutNoDup(s, s[k]);
  }

  lemma CutFrame(mem: seq<Entry>, mem': seq<Entry>, s: seq<nat>, k: nat, r: seq<nat>)
    requires k < |s| && |mem'| == |mem| < NIL && r == s[..k] + s[k + 1..]
    requires forall j :: 0 <= j < |mem| ==> mem'[j] == Bridged(mem, At(s, k - 1), At(s, k + 1), j)
    ensures forall j :: 0 <= j < |mem| && j !in r ==> mem'[j] == mem[j]
  {
    if k > 0 { assert r[k - 1] == s[k - 1]; }
    if k + 1 < |s| { assert r[k] == s[k + 1]; }
  }

  lemma BridgedInRange(mem: seq<Entry>, mem': seq<Entry>, p: nat, n: nat)
    requires LinksInRange(mem) && |mem'| == |mem| && IndexOrNil(p, |mem|) && IndexOrNil(n, |mem|)
    requires forall j :: 0 <= j < |mem| ==> mem'[j] == Bridged(mem, p, n, j)
    ensures LinksInRange(mem')
    ensures forall j :: 0 <= j < |mem| ==> SameButLinks(mem[j], mem'[j])
  {
  }

  // ---------- the lists ----------

  class IList {
    var nrElts: nat
    var head: nat
    var tail: nat
    ghost var elts: seq<nat>  // the listed entries, head first

    ghost predicate Linked(mem: seq<Entry>)
      reads this
    {
      && Threads(mem, elts)
      && nrElts == |elts| && head == At(elts, 0) && tail == At(elts, |elts| - 1)
    }

    ghost predicate Blank()
      reads this
    {
      elts == [] && nrElts == 0 && head == NIL && tail == NIL
    }

    constructor ()
      ensures Blank()
    {
      nrElts, head, tail := 0, NIL, NIL;
      elts := [];
    }

    lemma EmptyIsLinked(mem: seq<Entry>)
      requires Blank() && |mem| < NIL
      ensures Linked(mem)
    {
    }

    method AddHead(es: array<Entry>, e: nat)
      requires Linked(es[..]) && LinksInRange(es[..]) && e < es.Length && e !in elts
      modifies this, es
      ensures Linked(es[..]) && LinksInRange(es[..]) && elts == [e] + old(elts)
      ensures forall i :: 0 <= i < es.Length ==> SameButLinks(old(es[..])[i], es[..][i])
      ensures forall i :: 0 <= i < es.Length && i !in elts ==> es[..][i] == old(es[..])[i]
    {
      ghost var mem, s := es[..], elts;
      ThreadLength(mem, s);
      es[e] := es[e].(next := head, prev := NIL);
      if head != NIL {
        es[head] := es[head].(prev := e);
        head := e;
      } else {
        head, tail := e, e;
      }
      nrElts := (nrElts + 1) % WORD;
      elts := [e] + elts;
      assert forall j :: 0 <= j < |mem| ==> es[..][j] == Pushed(mem, At(s, 0), e, j);
      PushThreads(mem, es[..], s, e);
    }

    method AddTail(es: array<Entry>, e: nat)
      requires LinksInRange(es[..]) && IndexOrNil(tail, es.Length) && e < es.Length
      modifies this, es
      ensures LinksInRange(es[..]) && elts == old(elts) + [e] && tail == e
      ensures forall i :: 0 <= i < es.Length ==> SameButLinks(old(es[..])[i], es[..][i])
      ensures old(Linked(es[..]) && e !in elts) ==> Linked(es[..])
      ensures old(Linked(es[..]) && e !in elts) ==>
        forall i :: 0 <= i < es.Length && i !in elts ==> es[..][i] == old(es[..])[i]
    {
      ghost var mem, s, t := es[..], elts, tail;
      es[e] := es[e].(next := NIL, prev := tail);
      if tail != NIL {
        es[tail] := es[tail].(next := e);
        tail := e;
      } else {
        head, tail := e, e;
      }
      nrElts := (nrElts + 1) % WORD;
      elts := elts + [e];
      if old(Linked(es[..]) && e !in elts) {
        ThreadLength(mem, s);
        assert forall j :: 0 <= j < |mem| ==> es[..][j] == Appended(mem, t, e, j);
        AppendThreads(mem, es[..], s, e);
      }
    }

    /** Makes the neighbours that `e` names point at each other. */
    method Bridge(es: array<Entry>, e: nat)
      requires LinksInRange(es[..]) && e < es.Length
      modifies `head, `tail, `nrElts, es
      ensures nrElts == (old(nrElts) - 1) % WORD
      ensures head == if old(es[e].prev) != NIL then old(head) else old(es[e].next)
      ensures tail == if old(es[e].next) != NIL then old(tail) else old(es[e].prev)
      ensures forall j :: 0 <= j < es.Length ==>
        es[..][j] == Bridged(old(es[..]), old(es[e].prev), old(es[e].next), j)
    {
      var prev, next := es[e].prev, es[e].next;
      if prev != NIL {
        es[prev] := es[prev].(next := next);
      } else {
        head := next;
      }
      if next != NIL {
        es[next] := es[next].(prev := prev);
      } else {
        tail := prev;
      }
      nrElts := (nrElts - 1) % WORD;
    }

    /** Unlinks `e`, leaving its own links stale. It leaves a list behind if `e` was listed. */
    method Del(es: array<Entry>, e: nat)
      requires LinksInRange(es[..]) && e < es.Length
      modifies this, es
      ensures LinksInRange(es[..])
      ensures forall i :: 0 <= i < es.Length ==> SameButLinks(old(es[..])[i], es[..][i])
      ensures elts == Without(old(elts), e)
      ensures old(Linked(es[..]) && e in elts) ==> Linked(es[..])
      ensures old(Linked(es[..]) && e in elts) ==>
        forall i :: 0 <= i < es.Length && i !in elts ==> es[..][i] == old(es[..])[i]
    {
      ghost var mem, s := es[..], elts;
      Bridge(es, e);
      BridgedInRange(mem, es[..], mem[e].prev, mem[e].next);
      elts := Without(elts, e);
      if old(Linked(es[..]) && e in elts) {
        ghost var k := IndexOf(s, e);
        NeighboursAt(mem, s, k);
        Shortened(mem, es[..], s, k);
        CutFrame(mem, es[..], s, k, elts);
      }
    }

    /** The list once its element `s[k]` has been bridged over. */
    lemma Shortened(mem: seq<Entry>, mem': seq<Entry>, s: seq<nat>, k: nat)
      requires Threads(mem, s) && k < |s| && |mem'| == |mem|
      requires forall j :: 0 <= j < |mem| ==> mem'[j] == Bridged(mem, At(s, k - 1), At(s, k + 1), j)
      requires elts == s[..k] + s[k + 1..] && NoDup(elts) && nrElts == (|s| - 1) % WORD
      requires head == if k > 0 then At(s, 0) else At(s, 1)
      requires tail == if k + 1 < |s| then At(s, |s| - 1) else At(s, k - 1)
      ensures Linked(mem')
    {
      ThreadLength(mem, s);
      CutThreads(mem, mem', s, k, elts);
      AtWithout(s, elts, k, 0);
      AtWithout(s, elts, k, |s| - 2);
    }

    method PopHead(es: array<Entry>) returns (e: nat)
      requires Linked(es[..]) && LinksInRange(es[..])
      modifies this, es
      ensures Linked(es[..]) && LinksInRange(es[..])
      ensures old(elts) == [] ==> e == NIL && elts == []
      ensures old(elts) != [] ==> e == old(elts)[0] && elts == old(elts)[1..]
      ensures forall i :: 0 <= i < es.Length ==> SameButLinks(old(es[..])[i], es[..][i])
      ensures forall i :: 0 <= i < es.Length && i !in elts ==> es[..][i] == old(es[..])[i]
    {
      e := head;
      if e != NIL {
        WithoutAt(elts, 0);
        Del(es, e);
      }
    }
  }
}
