/** The dirty and the free list are queues: what was marked longest ago is written back first, and what
    was released longest ago is allocated first. */
module ListOrder {
  import opened Sequences
  import opened Works
  import opened CacheMachine
  import opened CacheInvariant
  import opened CacheRuns
  import opened Lru

  /** The two lists that no lookup reorders. */
  datatype Which = Dirties | Frees

  ghost function ListOf(w: Which, s: State): seq<nat> {
    if w.Dirties? then s.dirty else s.free
  }

  /** The action marks block `b` dirty while no copy of it is under way, inserts it for a write, or ends
      the copy of a block that was marked meanwhile. */
  ghost predicate Marks(s: State, a: Action, b: nat) {
    match a
    case SetDirty(c) => c == b && b < |s.slots| && s.slots[b].alloc && !s.slots[b].pending
    case LookupInsert(k) => CanInsert(s, k) && s.free[0] == b
    case Complete =>
      && InFlight(s, b) && b < |s.slots| && s.slots[b].dirty
      && !s.worker.kind.Demotion? && s.worker.stage == Moved(true)
    case _ => false
  }

  /** The action gives block `b` back: a discard, a demotion, or a promotion that failed. */
  ghost predicate Releases(s: State, a: Action, b: nat) {
    match a
    case Remove(k) => Holds(s, k, b)
    case Complete =>
      && InFlight(s, b)
      && !s.worker.kind.Writeback? && s.worker.stage == Moved(s.worker.kind.Demotion?)
    case _ => false
  }

  ghost predicate Queues(w: Which, s: State, a: Action, b: nat) {
    if w.Dirties? then Marks(s, a, b) else Releases(s, a, b)
  }

  /** When the run last queued `b`, read off the history. Blocks that it never queued count by their
      numbers, as in a new free list. */
  ghost function LastQueued(w: Which, s: State, acts: seq<Action>, b: nat): nat
    requires Inv(s) && Legal(s, acts)
  {
    if acts == [] then if b < |s.slots| then b else 0
    else
      var before := acts[..|acts| - 1];
      if Queues(w, Exec(s, before), acts[|acts| - 1], b) then |s.slots| + |acts| else LastQueued(w, s, before, b)
  }

  lemma {:induction false} LastQueuedBound(w: Which, s: State, acts: seq<Action>, b: nat)
    requires Inv(s) && Legal(s, acts)
    ensures LastQueued(w, s, acts, b) <= |s.slots| + |acts|
  {
    if acts != [] { LastQueuedBound(w, s, acts[..|acts| - 1], b); }
  }

  // ---------- one action ----------

  /** An action drops block `x` from the list, puts it at the tail, or both. */
  ghost predicate Moves(w: Which, u: State, a: Action, t: State, x: nat, added: bool) {
    && ListOf(w, t) == Without(ListOf(w, u), x) + (if added then [x] else [])
    && (added ==> Queues(w, u, a, x))
    && (forall b: nat :: Queues(w, u, a, b) ==> b == x)
  }

  lemma DirtyComplete(u: State, t: State) returns (x: nat, added: bool)
    requires Inv(u) && Enabled(u, Complete) && t == Next(u, Complete)
    requires !u.worker.kind.Promotion? ==> u.worker.stage.ok
    ensures Moves(Dirties, u, Complete, t, x, added)
  {
    x := u.worker.block;
    added := u.worker.stage.ok && !u.worker.kind.Demotion? && u.slots[x].dirty;
    if u.worker.kind.Demotion? { DemotionIs(u, x); }
  }

  lemma DirtyAttempt(u: State, t: State) returns (x: nat, added: bool)
    requires Inv(u) && u.worker.Trying? && t == Next(u, Attempt)
    ensures Moves(Dirties, u, Attempt, t, x, added)
  {
    InvInRange(u);
    x, added := |u.slots|, false;
    if u.worker.kind.Writeback? && u.dirty != [] {
      assert u.dirty[0] in u.dirty;
      x := u.dirty[0];
      WithoutHead(u.dirty);
    }
  }

  lemma DirtyInsert(u: State, k: Key, t: State) returns (x: nat, added: bool)
    requires Inv(u) && t == Next(u, LookupInsert(k))
    ensures Moves(Dirties, u, LookupInsert(k), t, x, added)
  {
    x, added := |u.slots|, CanInsert(u, k);
    if added {
      assert u.free[0] in u.free;
      x := u.free[0];
    }
  }

  lemma DirtyRemove(u: State, k: Key, t: State) returns (x: nat, added: bool)
    requires Inv(u) && Enabled(u, Remove(k)) && t == Next(u, Remove(k))
    ensures Moves(Dirties, u, Remove(k), t, x, added)
  {
    x, added := |u.slots|, false;
    if Hashed(u, k) {
      x := Find(u, k).value;
      RemoveIs(u, k, x);
    }
  }

  lemma DirtyByUser(u: State, a: Action, t: State) returns (x: nat, added: bool)
    requires Inv(u) && Enabled(u, a) && t == Next(u, a) && !a.Complete? && !a.Attempt?
    ensures Moves(Dirties, u, a, t, x, added)
  {
    if a.LookupInsert? {
      x, added := DirtyInsert(u, a.key, t);
    } else if a.Remove? {
      x, added := DirtyRemove(u, a.key, t);
    } else {
      x, added := |u.slots|, false;
      if a.SetDirty? && Marks(u, a, a.block) { x, added := a.block, true; }
    }
  }

  lemma FreeComplete(u: State, t: State) returns (x: nat, added: bool)
    requires Inv(u) && Enabled(u, Complete) && t == Next(u, Complete)
    ensures Moves(Frees, u, Complete, t, x, added)
  {
    x := u.worker.block;
    added := if u.worker.kind.Demotion? then u.worker.stage.ok else u.worker.kind.Promotion? && !u.worker.stage.ok;
    if u.worker.kind.Demotion? && u.worker.stage.ok { DemotionIs(u, x); }
  }

  /** A promotion's reservation, or an insertion, takes the head. */
  lemma FreeTaken(u: State, a: Action, t: State) returns (x: nat, added: bool)
    requires Inv(u) && Enabled(u, a) && t == Next(u, a) && (a.LookupInsert? || a.Attempt?)
    ensures Moves(Frees, u, a, t, x, added)
  {
    InvInRange(u);
    x, added := |u.slots|, false;
    if t.free != u.free {
      assert u.free != [] && t.free == u.free[1..];
      x := u.free[0];
      WithoutHead(u.free);
    }
  }

  lemma FreeRemove(u: State, k: Key, t: State) returns (x: nat, added: bool)
    requires Inv(u) && Enabled(u, Remove(k)) && t == Next(u, Remove(k))
    ensures Moves(Frees, u, Remove(k), t, x, added)
  {
    x, added := |u.slots|, false;
    if Hashed(u, k) {
      x, added := Find(u, k).value, true;
      RemoveIs(u, k, x);
    }
  }

  lemma FreeOther(u: State, a: Action, t: State) returns (x: nat, added: bool)
    requires Inv(u) && Enabled(u, a) && t == Next(u, a) && !a.Complete?
    ensures Moves(Frees, u, a, t, x, added)
  {
    if a.LookupInsert? || a.Attempt? {
      x, added := FreeTaken(u, a, t);
    } else if a.Remove? {
      x, added := FreeRemove(u, a.key, t);
    } else {
      InvInRange(u);
      x, added := |u.slots|, false;
    }
  }

  lemma ListMoves(w: Which, u: State, a: Action, t: State) returns (x: nat, added: bool)
    requires Inv(u) && Enabled(u, a) && t == Next(u, a)
    requires w.Dirties? && a.Complete? && !u.worker.kind.Promotion? ==> u.worker.stage.ok
    ensures Moves(w, u, a, t, x, added)
  {
    if w.Frees? {
      if a.Complete? { x, added := FreeComplete(u, t); } else { x, added := FreeOther(u, a, t); }
    } else if a.Complete? {
      x, added := DirtyComplete(u, t);
    } else if a.Attempt? {
      x, added := DirtyAttempt(u, t);
    } else {
      x, added := DirtyByUser(u, a, t);
    }
  }

  // ---------- whole runs ----------

  ghost predicate InOrder(w: Which, s: State, acts: seq<Action>)
    requires Inv(s) && Legal(s, acts)
  {
    Increasing(ListOf(w, Exec(s, acts)), b => LastQueued(w, s, acts, b))
  }

  lemma LastQueuedStep(w: Which, s: State, before: seq<Action>, a: Action, b: nat)
    requires Inv(s) && Legal(s, before) && Enabled(Exec(s, before), a) && Legal(s, before + [a])
    ensures LastQueued(w, s, before + [a], b)
         == if Queues(w, Exec(s, before), a, b) then |s.slots| + |before| + 1 else LastQueued(w, s, before, b)
    ensures LastQueued(w, s, before, b) < |s.slots| + |before| + 1
  {
    assert (before + [a])[..|before|] == before;
    LastQueuedBound(w, s, before, b);
  }

  lemma InOrderKept(w: Which, s: State, before: seq<Action>, a: Action)
    requires Inv(s) && Legal(s, before) && Enabled(Exec(s, before), a) && Legal(s, before + [a])
    requires InOrder(w, s, before)
    requires w.Dirties? && a.Complete? && !Exec(s, before).worker.kind.Promotion? ==> Exec(s, before).worker.stage.ok
    ensures InOrder(w, s, before + [a])
  {
    var u, t := Exec(s, before), Exec(s, before + [a]);
    ExecSnoc(s, before, a);
    var x, added := ListMoves(w, u, a, t);
    var was := (b: nat) => LastQueued(w, s, before, b);
    var now := (b: nat) => LastQueued(w, s, before + [a], b);
    forall b: nat
      ensures now(b) == if Queues(w, u, a, b) then |s.slots| + |before| + 1 else was(b)
      ensures was(b) < |s.slots| + |before| + 1
    {
      LastQueuedStep(w, s, before, a, b);
    }
    IncreasingAfter(ListOf(w, u), x, added, was, now);
  }

  /** What the order needs of the start: a free list as `init_mapping` makes it, or nothing marked. */
  ghost predicate StartsInOrder(w: Which, s: State) {
    match w
    case Dirties => s.dirty == [] && DemotionsSucceed(s)
    case Frees => forall i, j :: 0 <= i < j < |s.free| ==> s.free[i] < s.free[j]
  }

  lemma StartInOrder(w: Which, s: State)
    requires Inv(s) && StartsInOrder(w, s)
    ensures InOrder(w, s, [])
  {
    assert forall i :: 0 <= i < |s.free| ==> s.free[i] in s.free;
  }

  lemma DemotionsKept(u: State, a: Action)
    requires Inv(u) && Enabled(u, a) && DemotionsSucceed(u)
    ensures DemotionsSucceed(Next(u, a))
  {
  }

  /** Over every run the free list is ordered by when its blocks were released. Over every run with
      successful writebacks the dirty list is ordered by the latest mark, insertion or landing while
      marked. */
  lemma {:induction false} ListsAreQueues(w: Which, s: State, acts: seq<Action>)
    requires Inv(s) && StartsInOrder(w, s) && Legal(s, acts) && (w.Dirties? ==> WritebacksSucceed(s, acts))
    ensures InOrder(w, s, acts)
    ensures w.Dirties? ==> DemotionsSucceed(Exec(s, acts))
  {
    if acts == [] {
      StartInOrder(w, s);
    } else {
      var before, a := acts[..|acts| - 1], acts[|acts| - 1];
      assert acts == before + [a];
      ListsAreQueues(w, s, before);
      InOrderKept(w, s, before, a);
      if w.Dirties? { DemotionsKept(Exec(s, before), a); }
    }
  }

  /** The head of a list in order was queued before any other. */
  lemma HeadIsOldest(w: Which, s: State, acts: seq<Action>, c: nat)
    requires Inv(s) && Legal(s, acts) && InOrder(w, s, acts) && c in ListOf(w, Exec(s, acts))
    ensures ListOf(w, Exec(s, acts))[0] == c ||
      LastQueued(w, s, acts, ListOf(w, Exec(s, acts))[0]) < LastQueued(w, s, acts, c)
  {
    var l := ListOf(w, Exec(s, acts));
    var time := b => LastQueued(w, s, acts, b);
    var j :| 0 <= j < |l| && l[j] == c;
    if j > 0 { assert time(l[0]) < time(l[j]); }
  }

  lemma ReservesHead(u: State)
    requires Inv(u) && u.worker.Trying?
    ensures u.worker.kind.Writeback? && u.dirty != [] ==>
      Next(u, Attempt).worker == Moving(Writeback, u.worker.key, u.dirty[0], Reserved)
    ensures u.worker.kind.Promotion? && u.free != [] ==>
      Next(u, Attempt).worker == Moving(Promotion, u.worker.key, u.free[0], Reserved)
  {
    if u.dirty != [] { assert u.dirty[0] in u.dirty; }
  }

  /** So a writeback always reserves the dirty block whose latest mark is oldest. */
  lemma WritesBackOldestMark(s: State, acts: seq<Action>, c: nat, b: nat)
    requires Inv(s) && StartsInOrder(Dirties, s) && Legal(s, acts) && WritebacksSucceed(s, acts)
    requires Exec(s, acts).worker.Trying? && Exec(s, acts).worker.kind.Writeback? && c in Exec(s, acts).dirty
    requires Next(Exec(s, acts), Attempt).worker.Moving? ==> b == Next(Exec(s, acts), Attempt).worker.block
    ensures Next(Exec(s, acts), Attempt).worker.Moving? && b in Exec(s, acts).dirty
    ensures b == c || LastQueued(Dirties, s, acts, b) < LastQueued(Dirties, s, acts, c)
  {
    ListsAreQueues(Dirties, s, acts);
    HeadIsOldest(Dirties, s, acts, c);
    ReservesHead(Exec(s, acts));
  }

  /** And a promotion takes the free block that was released first. */
  lemma PromotesLongestFree(s: State, acts: seq<Action>, c: nat, b: nat)
    requires Inv(s) && StartsInOrder(Frees, s) && Legal(s, acts)
    requires Exec(s, acts).worker.Trying? && Exec(s, acts).worker.kind.Promotion? && c in Exec(s, acts).free
    requires Next(Exec(s, acts), Attempt).worker.Moving? ==> b == Next(Exec(s, acts), Attempt).worker.block
    ensures Next(Exec(s, acts), Attempt).worker.Moving? && b in Exec(s, acts).free
    ensures b == c || LastQueued(Frees, s, acts, b) < LastQueued(Frees, s, acts, c)
  {
    ListsAreQueues(Frees, s, acts);
    HeadIsOldest(Frees, s, acts, c);
    ReservesHead(Exec(s, acts));
  }

  /** A writeback that failed puts its block in front: of the dirty ones if it was marked meanwhile, else
      of the clean ones. */
  lemma FailedGoesFirst(s: State)
    requires Inv(s) && s.worker.Moving? && s.worker.kind.Writeback? && s.worker.stage == Moved(false)
    ensures var t, b := Next(s, Complete), s.worker.block;
      if s.slots[b].dirty then t.dirty == [b] + s.dirty && t.clean == s.clean
      else t.clean == [b] + s.clean && t.dirty == s.dirty
  {
  }

  /** A demotion completed as failed, which the worker's never are, would put its block last. */
  lemma FailedDemotionGoesLast(s: State)
    requires Inv(s) && s.worker.Moving? && s.worker.kind.Demotion? && s.worker.stage == Moved(false)
    ensures var t, b := Next(s, Complete), s.worker.block;
      if s.slots[b].dirty then t.dirty == s.dirty + [b] && t.clean == s.clean
      else t.clean == s.clean + [b] && t.dirty == s.dirty
  {
  }

  /** A mark that comes after its block was given back changes nothing. */
  lemma StaleMarkIgnored(s: State, b: nat)
    requires Inv(s) && b in s.free
    ensures Enabled(s, SetDirty(b)) && Next(s, SetDirty(b)) == s
  {
  }
}
