/** The queue of promotion works (lib/work_queue.c): a ring of 16 places that holds at most
    15 distinct works. */
module Works {
  import opened Sequences

  /** A C `char` is a signed byte; a name is the characters before its terminating zero. */
  type CChar = c: int | -128 <= c < 128
  type Name = seq<CChar>

  /** What the cache is keyed by: a file and the number of a 32 KB block in it. */
  datatype Key = Key(name: Name, page: nat)

  const RING := 16
  const CAPACITY := RING - 1

  /** The duplicate-free FIFO that the ring stands for. */
  ghost function Insert(q: seq<Key>, k: Key): seq<Key> {
    if |q| == CAPACITY || k in q then q else q + [k]
  }

  /** `contains_work` compares only as many characters as the queued name has, so a queued
      name that is a prefix of the one asked for counts as well. */
  ghost predicate Contains(q: seq<Key>, k: Key) {
    exists i :: 0 <= i < |q| && Matches(q[i], k)
  }

  predicate Matches(queued: Key, k: Key) {
    queued.page == k.page && queued.name <= k.name
  }

  /** That is: a queued work has the page, and a name that the other begins with. */
  lemma ContainsExactly(q: seq<Key>, k: Key)
    ensures Contains(q, k) <==>
      exists i :: 0 <= i < |q| && q[i].page == k.page && |q[i].name| <= |k.name| &&
        forall j :: 0 <= j < |q[i].name| ==> q[i].name[j] == k.name[j]
  {
    forall i | 0 <= i < |q|
      ensures Matches(q[i], k) <==>
        q[i].page == k.page && |q[i].name| <= |k.name| && forall j :: 0 <= j < |q[i].name| ==> q[i].name[j] == k.name[j]
    {
    }
  }

  /** The place of the `j`-th queued work. */
  function Place(front: nat, j: nat): nat {
    (front + j) % RING
  }

  lemma PlaceNext(front: nat, j: nat)
    requires front < RING && j < RING
    ensures Place(front, j + 1) == (Place(front, j) + 1) % RING == Place((front + 1) % RING, j)
    ensures (Place(front, j) - front) % RING == j
  {
  }

  lemma RearIs(front: nat, rear: nat, size: nat)
    requires front < RING && rear < RING && size == (rear - front) % RING
    ensures rear == Place(front, size)
    ensures forall j: nat :: j < size ==> Place(front, j) != rear
  {
    assert rear == if front + size < RING then front + size else front + size - RING;
  }

  /** The places that stay when the front one is given up. */
  lemma FrontGone(front: nat, rear: nat, size: nat, next: nat)
    requires front < RING && rear < RING && 0 < size == (rear - front) % RING && next == (front + 1) % RING
    ensures size - 1 == (rear - next) % RING
    ensures forall j: nat :: j < size - 1 ==> Place(next, j) == Place(front, j + 1)
  {
    forall j: nat | j < size - 1 ensures Place(next, j) == Place(front, j + 1) {
      PlaceNext(front, j);
    }
  }

  class WorkQueue {
    const works: array<Key>
    var front: nat
    var rear: nat
    var size: nat
    ghost var items: seq<Key>  // the queued works, oldest first

    ghost predicate Valid()
      reads this, works
    {
      && works.Length == RING && front < RING && rear < RING
      && size == |items| <= CAPACITY && NoDup(items)
      && size == (rear - front) % RING
      && forall j :: 0 <= j < size ==> works[Place(front, j)] == items[j]
    }

    /** Zero-filled memory is an empty queue. */
    constructor ()
      ensures Valid() && items == [] && fresh(works)
    {
      works := new Key[RING](_ => Key([], 0));
      front, rear, size := 0, 0, 0;
      items := [];
    }

    /** The place the next work goes to holds no queued work. */
    lemma PlaceIsFree()
      requires Valid()
      ensures forall j :: 0 <= j < size ==> Place(front, j) != rear
      ensures rear == Place(front, size)
    {
      RearIs(front, rear, size);
    }

    /** The two ends meet exactly when the queue is empty. */
    lemma EndsMeetWhenEmpty()
      requires Valid()
      ensures front == rear <==> items == []
      ensures rear == Place(front, size)
    {
    }

    method IsFull() returns (full: bool)
      requires Valid()
      ensures !full
    {
      full := size == RING;
    }

    method IsEmpty() returns (empty: bool)
      requires Valid()
      ensures empty <==> items == []
    {
      empty := size == 0;
    }

    method ContainsWork(k: Key) returns (found: bool)
      requires Valid()
      ensures found <==> Contains(items, k)
      ensures found <==>
        exists i :: 0 <= i < |items| && items[i].page == k.page && |items[i].name| <= |k.name| &&
          forall j :: 0 <= j < |items[i].name| ==> items[i].name[j] == k.name[j]
    {
      ContainsExactly(items, k);
      RearIs(front, rear, size);
      var i := front;
      ghost var j: nat := 0;
      while i != rear
        invariant 0 <= j <= size && i == Place(front, j)
        invariant forall m :: 0 <= m < j ==> !Matches(items[m], k)
        decreases size - j
      {
        PlaceNext(front, j);
        if Matches(works[i], k) {
          assert Matches(items[j], k);
          return true;
        }
        i := (i + 1) % RING;
        j := j + 1;
      }
      assert j == size;
      return false;
    }

    /** The scan of `insert_work`, which compares whole names. */
    method IsQueued(k: Key) returns (found: bool)
      requires Valid()
      ensures found <==> k in items
    {
      RearIs(front, rear, size);
      var i := front;
      ghost var j: nat := 0;
      while i != rear
        invariant 0 <= j <= size && i == Place(front, j)
        invariant forall m :: 0 <= m < j ==> items[m] != k
        decreases size - j
      {
        PlaceNext(front, j);
        if works[i] == k {
          assert items[j] == k;
          return true;
        }
        i := (i + 1) % RING;
        j := j + 1;
      }
      assert j == size;
      return false;
    }

    method InsertWork(k: Key) returns (inserted: bool)
      requires Valid()
      modifies this, works
      ensures Valid()
      ensures items == Insert(old(items), k)
      ensures inserted <==> k !in old(items) && |old(items)| < 15
      ensures items == if inserted then old(items) + [k] else old(items)
    {
      if size == RING - 1 {
        return false;
      }
      var queued := IsQueued(k);
      if queued {
        return false;
      }
      PlaceIsFree();
      PlaceNext(front, size);
      PlaceNext(front, size + 1);
      works[rear] := k;
      rear := (rear + 1) % RING;
      size := size + 1;
      items := items + [k];
      return true;
    }

    method RemoveWork() returns (removed: bool)
      requires Valid()
      modifies this
      ensures Valid()
      ensures removed <==> old(items) != []
      ensures items == if removed then old(items)[1..] else old(items)
    {
      if size == 0 {
        return false;
      }
      FrontGone(front, rear, size, (front + 1) % RING);
      front := (front + 1) % RING;
      size := size - 1;
      items := items[1..];
      return true;
    }

    method PeakWork() returns (k: Option<Key>)
      requires Valid()
      ensures k == if items == [] then None else Some(items[0])
    {
      if size == 0 {
        return None;
      }
      return Some(works[front]);
    }
  }

  // ---------- the FIFO over whole histories ----------

  datatype QueueOp = Push(key: Key) | Pop

  ghost function After(ops: seq<QueueOp>): seq<Key> {
    if ops == [] then []
    else
      var q := After(ops[..|ops| - 1]);
      match ops[|ops| - 1]
      case Push(k) => Insert(q, k)
      case Pop => if q == [] then [] else q[1..]
  }

  /** The works that the run accepted, oldest first. */
  ghost function Accepted(ops: seq<QueueOp>): seq<Key> {
    if ops == [] then []
    else
      var q, op := After(ops[..|ops| - 1]), ops[|ops| - 1];
      Accepted(ops[..|ops| - 1]) +
      if op.Push? && op.key !in q && |q| < CAPACITY then [op.key] else []
  }

  /** The works that the run removed, in order. */
  ghost function Removed(ops: seq<QueueOp>): seq<Key> {
    if ops == [] then []
    else
      var q := After(ops[..|ops| - 1]);
      Removed(ops[..|ops| - 1]) + if ops[|ops| - 1].Pop? && q != [] then [q[0]] else []
  }

  /** Every accepted work leaves once, in the order of arrival; what has not left is queued,
      without duplicates and at most 15 of them. */
  lemma {:induction false} FifoHistory(ops: seq<QueueOp>)
    ensures Accepted(ops) == Removed(ops) + After(ops)
    ensures NoDup(After(ops)) && |After(ops)| <= 15
  {
    if ops != [] {
      var before, op := ops[..|ops| - 1], ops[|ops| - 1];
      FifoHistory(before);
      var q := After(before);
      if op.Pop? && q != [] {
        assert q == [q[0]] + q[1..];
      }
    }
  }

  /** A history that only inserts. */
  ghost function Pushes(ks: seq<Key>): (ops: seq<QueueOp>)
    ensures |ops| == |ks| && forall i :: 0 <= i < |ks| ==> ops[i] == Push(ks[i])
  {
    seq(|ks|, i requires 0 <= i < |ks| => Push(ks[i]))
  }

  /** Any fifteen distinct works are all queued, in order. */
  lemma {:induction false} FifteenFit(ks: seq<Key>)
    requires NoDup(ks) && |ks| <= 15
    ensures After(Pushes(ks)) == ks
  {
    if ks != [] {
      var before := ks[..|ks| - 1];
      FifteenFit(before);
      assert Pushes(ks)[..|ks| - 1] == Pushes(before);
      assert ks == before + [ks[|ks| - 1]];
    }
  }

  /** A sixteenth is refused, until a work is removed. */
  lemma SixteenthRefused(ks: seq<Key>, k: Key)
    requires NoDup(ks) && |ks| == 15 && k !in ks
    ensures After(Pushes(ks) + [Push(k)]) == ks
    ensures After(Pushes(ks) + [Pop] + [Push(k)]) == ks[1..] + [k]
  {
    var ops := Pushes(ks);
    FifteenFit(ks);
    assert (ops + [Push(k)])[..15] == ops && (ops + [Pop])[..15] == ops;
    assert (ops + [Pop] + [Push(k)])[..16] == ops + [Pop];
  }

  /** What the worker peeked stays in front however many works are put behind it. */
  lemma {:induction false} PeekedStays(ops: seq<QueueOp>, more: seq<QueueOp>)
    requires After(ops) != [] && Pop !in more
    ensures After(ops + more) != [] && After(ops + more)[0] == After(ops)[0]
    ensures After(ops) <= After(ops + more)
  {
    if more == [] {
      assert ops + more == ops;
    } else {
      assert (ops + more)[..|ops + more| - 1] == ops + more[..|more| - 1];
      PeekedStays(ops, more[..|more| - 1]);
    }
  }
}
