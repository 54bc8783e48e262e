/** Lookups are one transition of the machine, though they use the work queue's own lock in between, which
    the worker takes without `mapping_lock` (lib/ssd_cache_mapping.c, lib/work_queue.c). */
module Sections {
  import opened Works
  import opened CacheMachine
  import opened CacheInvariant
  import opened CacheRuns

  /** What the worker can do while a user is inside `mapping_lock`. */
  ghost predicate Unlocked(a: Action) {
    a.Peek? || a.RemoveWork? || a.Load? || a.Store? || a.Trim?
  }

  ghost predicate AllUnlocked(acts: seq<Action>) {
    forall i :: 0 <= i < |acts| ==> Unlocked(acts[i])
  }

  lemma UnlockedStep(s: State, a: Action)
    requires Inv(s) && Enabled(s, a) && Unlocked(a)
    ensures Next(s, a) == s.(queue := Next(s, a).queue, worker := Next(s, a).worker)
    ensures forall k :: k in Next(s, a).queue ==> k in s.queue
  {
  }

  /** Only the worker's program counter and the front of the queue change. */
  lemma {:induction false} UnlockedRun(s: State, acts: seq<Action>)
    requires Inv(s) && Legal(s, acts) && AllUnlocked(acts)
    ensures var t := Exec(s, acts);
      t == s.(queue := t.queue, worker := t.worker) && forall k :: k in t.queue ==> k in s.queue
  {
    if acts != [] {
      var before := acts[..|acts| - 1];
      UnlockedRun(s, before);
      UnlockedStep(Exec(s, before), acts[|acts| - 1]);
    }
  }

  /** What is left of `lookup_mapping_with_insert` after `contains_work` has said `contained`. */
  ghost function FinishInsert(t: State, k: Key, contained: bool): State
    requires InRange(t)
  {
    if contained then t
    else if t.free == [] then t.(queue := Insert(t.queue, k))
    else
      var b := t.free[0];
      Enlist(Alloc(t, Slot(k, false, true, true)).(hashed := t.hashed + {b}), b, true)
  }

  lemma {:induction false} Prepend(s: State, a: Action, acts: seq<Action>, all: seq<Action>)
    requires Inv(s) && Enabled(s, a) && Next(s, a) == s && Legal(s, acts) && all == [a] + acts
    ensures Legal(s, all) && Exec(s, all) == Exec(s, acts)
  {
    if acts == [] {
      assert all[..0] == [];
    } else {
      Prepend(s, a, acts[..|acts| - 1], all[..|all| - 1]);
    }
  }

  /** `contains_work` and `insert_work` are two sections of the queue's own lock, and the worker can peek
      and remove in between. The whole is still one transition, taken before those steps if the key was
      queued, and after them if it was not. */
  lemma InsertIsAtomic(s: State, k: Key, acts: seq<Action>) returns (all: seq<Action>)
    requires Inv(s) && !Hashed(s, k) && Legal(s, acts) && AllUnlocked(acts)
    ensures all == if Contains(s.queue, k) then [LookupInsert(k)] + acts else acts + [LookupInsert(k)]
    ensures InRange(Exec(s, acts)) && Legal(s, all)
    ensures Exec(s, all) == FinishInsert(Exec(s, acts), k, Contains(s.queue, k))
  {
    var t := Exec(s, acts);
    UnlockedRun(s, acts);
    InvInRange(t);
    if Contains(s.queue, k) {
      all := [LookupInsert(k)] + acts;
      Prepend(s, LookupInsert(k), acts, all);
    } else {
      all := acts + [LookupInsert(k)];
      ExecSnoc(s, acts, LookupInsert(k));
      SameTable(s, t, k);
      StillAbsent(s.queue, t.queue, k);
    }
  }

  lemma SameTable(s: State, t: State, k: Key)
    requires t.hashed == s.hashed && t.slots == s.slots && !Hashed(s, k)
    ensures !Hashed(t, k)
  {
    if Hashed(t, k) { assert Holds(s, k, Find(t, k).value); }
  }

  lemma StillAbsent(q: seq<Key>, r: seq<Key>, k: Key)
    requires !Contains(q, k) && forall x :: x in r ==> x in q
    ensures !Contains(r, k)
  {
    forall i | 0 <= i < |r| ensures !Matches(r[i], k) {
      assert r[i] in q;
    }
  }

  /** The same for `lookup_mapping`, which misses in the table and then inserts into the queue. */
  lemma MissIsAtomic(s: State, k: Key, acts: seq<Action>)
    requires Inv(s) && !Hashed(s, k) && Legal(s, acts) && AllUnlocked(acts)
    ensures var t := Exec(s, acts);
      Legal(s, acts + [Lookup(k)]) && Exec(s, acts + [Lookup(k)]) == t.(queue := Insert(t.queue, k))
  {
    UnlockedRun(s, acts);
    SameTable(s, Exec(s, acts), k);
    ExecSnoc(s, acts, Lookup(k));
  }
}
