/** Whole runs: any interleaving of user critical sections with the worker's phases. */
module CacheRuns {
  import opened Sequences
  import opened Works
  import opened CacheMachine
  import opened CacheInvariant

  /** Every action of the run is one its thread could take when its turn came. */
  ghost predicate Legal(s: State, acts: seq<Action>)
    requires Inv(s)
    decreases |acts|, 0
  {
    acts != [] ==>
      var before := acts[..|acts| - 1];
      Legal(s, before) && Enabled(Exec(s, before), acts[|acts| - 1])
  }

  /** The state a run ends in; the invariant holds there. */
  ghost function Exec(s: State, acts: seq<Action>): (t: State)
    requires Inv(s) && Legal(s, acts)
    ensures Inv(t)
    ensures |t.slots| == |s.slots|
    decreases |acts|, 1
  {
    if acts == [] then s
    else
      Next(Exec(s, acts[..|acts| - 1]), acts[|acts| - 1])
  }

  lemma ExecSnoc(s: State, acts: seq<Action>, a: Action)
    requires Inv(s) && Legal(s, acts) && Enabled(Exec(s, acts), a)
    ensures Legal(s, acts + [a]) && Exec(s, acts + [a]) == Next(Exec(s, acts), a)
  {
    assert (acts + [a])[..|acts|] == acts;
  }

  ghost predicate Reachable(n: nat, s: State) {
    n > 0 && exists acts: seq<Action> :: Legal(Start(n), acts) && s == Exec(Start(n), acts)
  }

  ghost function InFlightCount(s: State): nat {
    if s.worker.Moving? then 1 else 0
  }

  /** Conservation: free, clean and dirty blocks and the one in flight add up to all blocks. */
  lemma Conservation(s: State)
    requires Inv(s)
    ensures |s.free| + |s.clean| + |s.dirty| + InFlightCount(s) == |s.slots|
  {
    var free, clean, dirty := Elements(s.free), Elements(s.clean), Elements(s.dirty);
    var flying := if s.worker.Moving? then {s.worker.block} else {};
    UnionSize(free, clean, dirty, flying);
    CoverAll(s, free, clean, dirty, flying);
    assert |free + clean + dirty + flying| == |Below(|s.slots|)|;
  }

  lemma UnionSize<T>(a: set<T>, b: set<T>, c: set<T>, d: set<T>)
    ensures a !! b && (a + b) !! c && (a + b + c) !! d ==> |a + b + c + d| == |a| + |b| + |c| + |d|
  {
  }

  lemma CoverAll(s: State, free: set<nat>, clean: set<nat>, dirty: set<nat>, flying: set<nat>)
    requires Inv(s)
    requires forall b: nat :: b in free <==> b in s.free
    requires forall b: nat :: b in clean <==> b in s.clean
    requires forall b: nat :: b in dirty <==> b in s.dirty
    requires forall b: nat :: b in flying <==> InFlight(s, b)
    ensures free + clean + dirty + flying == Below(|s.slots|)
    ensures free !! clean && (free + clean) !! dirty && (free + clean + dirty) !! flying
  {
    var all := free + clean + dirty + flying;
    forall b: nat ensures b in all <==> b < |s.slots| {
    }
  }

  ghost function Elements(s: seq<nat>): (r: set<nat>)
    requires NoDup(s)
    ensures forall b: nat :: b in r <==> b in s
    ensures |r| == |s|
  {
    var r := set b: nat | b in s;
    NoDupSize(s, r);
    r
  }

  ghost function Below(n: nat): (r: set<nat>)
    ensures forall b: nat :: b in r <==> b < n
    ensures |r| == n
  {
    if n == 0 then {} else Below(n - 1) + {n - 1}
  }

  lemma ReachableInv(n: nat, s: State)
    requires Reachable(n, s)
    ensures Inv(s) && |s.slots| == n
  {
    var acts: seq<Action> :| Legal(Start(n), acts) && s == Exec(Start(n), acts);
  }

  /** Each block is in exactly one place, and hashed unless it is free or being promoted. */
  lemma ExactlyOnePlace(n: nat, s: State, b: nat)
    requires Reachable(n, s) && b < n
    ensures |s.slots| == n
    ensures (if b in s.free then 1 else 0) + (if b in s.clean then 1 else 0)
          + (if b in s.dirty then 1 else 0) + (if InFlight(s, b) then 1 else 0) == 1
    ensures b in s.hashed <==> b !in s.free && !Promoting(s, b)
  {
    ReachableInv(n, s);
  }

  /** No key is ever in the hash table twice, in any interleaving. */
  lemma NoKeyTwice(n: nat, s: State, k: Key, b: nat, c: nat)
    requires Reachable(n, s) && Holds(s, k, b) && Holds(s, k, c)
    ensures b == c
  {
    ReachableInv(n, s);
  }

  lemma CompleteHashes(s: State, t: State, b: nat)
    requires Inv(s) && Enabled(s, Complete) && t == Next(s, Complete) && b in t.hashed && b !in s.hashed
    ensures b < |t.slots| && !Hashed(s, t.slots[b].key)
  {
    if s.worker.kind.Demotion? && s.worker.stage.ok { DemotionIs(s, s.worker.block); }
    assert !Hashed(s, s.queue[0]);
  }

  lemma UserHashes(s: State, a: Action, t: State, b: nat)
    requires Inv(s) && Enabled(s, a) && !a.Complete? && t == Next(s, a) && b in t.hashed && b !in s.hashed
    ensures b < |t.slots| && !Hashed(s, t.slots[b].key)
  {
    if a.Remove? && Hashed(s, a.key) { RemoveIs(s, a.key, Find(s, a.key).value); }
  }

  /** A step that hashes a block hashes a key that was not there before. */
  lemma HashedOnlyWhenAbsent(n: nat, s: State, a: Action, b: nat)
    requires Reachable(n, s) && Enabled(s, a)
    ensures InRange(s)
    ensures b in Step(s, a).hashed && b !in s.hashed ==>
      b < |Step(s, a).slots| && !Hashed(s, Step(s, a).slots[b].key)
  {
    ReachableInv(n, s);
    var t := Next(s, a);
    if b in t.hashed && b !in s.hashed {
      if a.Complete? { CompleteHashes(s, t, b); } else { UserHashes(s, a, t, b); }
    }
  }

  // ---------- a write marked during a writeback ----------

  lemma MarkStep(u: State, b: nat, a: Action)
    requires Inv(u) && Enabled(u, a) && !a.Complete?
    requires InFlight(u, b) && u.worker.kind.Writeback?
    ensures InRange(u) && |Step(u, a).slots| == |u.slots|
    ensures InFlight(Step(u, a), b) && Step(u, a).worker.kind.Writeback?
    ensures Step(u, a).slots[b].dirty <==> u.slots[b].dirty || a == SetDirty(b)
  {
    InvInRange(u);
    if u.free != [] { assert u.free[0] in u.free; }
  }

  /** Between reserve and completion, the dirty bit of the block under writeback says exactly
      whether some thread marked it dirty meanwhile. */
  lemma {:induction false} MarkKept(s: State, b: nat, acts: seq<Action>)
    requires Inv(s) && Legal(s, acts) && Complete !in acts
    requires InFlight(s, b) && s.worker.kind.Writeback? && !s.slots[b].dirty
    ensures var t := Exec(s, acts);
      && InFlight(t, b) && t.worker.kind.Writeback?
      && (t.slots[b].dirty <==> SetDirty(b) in acts)
  {
    if acts != [] {
      var before, a := acts[..|acts| - 1], acts[|acts| - 1];
      assert acts == before + [a];
      MarkKept(s, b, before);
      MarkStep(Exec(s, before), b, a);
    }
  }

  /** Whether the writeback succeeded or not, its block ends on the dirty list exactly if a write
      marked it dirty between reserve and completion, and on the clean list otherwise. */
  lemma WritebackRemembersMark(s: State, b: nat, acts: seq<Action>)
    requires Inv(s) && Legal(s, acts + [Complete]) && Complete !in acts
    requires InFlight(s, b) && s.worker.kind.Writeback? && s.worker.stage.Reserved?
    requires !s.slots[b].dirty
    ensures var t := Exec(s, acts + [Complete]);
      && (b in t.dirty <==> SetDirty(b) in acts)
      && (b in t.clean <==> SetDirty(b) !in acts)
      && b in t.hashed
  {
    assert (acts + [Complete])[..|acts|] == acts;
    MarkKept(s, b, acts);
  }

  /** A reserved writeback starts with the dirty bit cleared, as the lemma above assumes. */
  lemma WritebackStartsClean(s: State)
    requires Inv(s) && s.worker.Trying? && s.worker.kind.Writeback?
    ensures InRange(s)
    ensures s.dirty != [] ==>
      var t, b := Step(s, Attempt), s.dirty[0];
      InFlight(t, b) && t.worker.kind.Writeback? && t.worker.stage.Reserved? && !t.slots[b].dirty
  {
    InvInRange(s);
    if s.dirty != [] { assert s.dirty[0] in s.dirty; }
  }

  // ---------- the worker never wastes a work ----------

  function Count(acts: seq<Action>, a: Action): nat {
    if acts == [] then 0
    else Count(acts[..|acts| - 1], a) + if acts[|acts| - 1] == a then 1 else 0
  }

  ghost predicate NoDiscard(acts: seq<Action>) {
    forall i :: 0 <= i < |acts| ==> !acts[i].Remove?
  }

  /** Once promotion has failed nothing is free, not even while a block is being demoted; once the
      demotion attempt has failed too, something is dirty. */
  ghost predicate Hungry(s: State) {
    match s.worker
    case Trying(kind, _) => (!kind.Promotion? ==> s.free == []) && (kind.Writeback? ==> s.dirty != [])
    case Moving(kind, _, _, _) => kind.Demotion? ==> s.free == []
    case _ => true
  }

  lemma HungryKept(s: State, a: Action)
    requires Inv(s) && Enabled(s, a) && !a.Remove? && Hungry(s)
    ensures InRange(s) && Hungry(Step(s, a))
    ensures !GivesUp(s, a)
  {
    InvInRange(s);
    if s.dirty != [] { assert s.dirty[0] in s.dirty; }
    if a.Attempt? { Conservation(s); }
    if a.SetDirty? { WithoutNoDup(s.dirty, a.block); }
  }

  /** Without DISCARD, nothing is free and no work is about to be dropped while the worker looks for a
      block to free. */
  lemma {:induction false} HungryAlways(s: State, acts: seq<Action>)
    requires Inv(s) && s.worker.Idle? && Legal(s, acts) && NoDiscard(acts)
    ensures Hungry(Exec(s, acts)) && GivenUp(s, acts) == 0
  {
    if acts != [] {
      var before, a := acts[..|acts| - 1], acts[|acts| - 1];
      HungryAlways(s, before);
      HungryKept(Exec(s, before), a);
    }
  }

  /** The third attempt fails as well, and the work is dropped unserved. */
  ghost predicate GivesUp(s: State, a: Action) {
    a.Attempt? && s.worker.Trying? && s.worker.kind.Writeback? && s.dirty == []
  }

  ghost function GivenUp(s: State, acts: seq<Action>): nat
    requires Inv(s) && Legal(s, acts)
  {
    if acts == [] then 0
    else
      var before := acts[..|acts| - 1];
      GivenUp(s, before) + if GivesUp(Exec(s, before), acts[|acts| - 1]) then 1 else 0
  }

  lemma WorkStep(s: State, a: Action)
    requires Inv(s) && Enabled(s, a)
    ensures var done, done' := if s.worker.Finished? then 1 else 0, if Next(s, a).worker.Finished? then 1 else 0;
      (if a == Complete || GivesUp(s, a) then 1 else 0) + done == (if a == RemoveWork then 1 else 0) + done'
  {
    if s.dirty != [] { assert s.dirty[0] in s.dirty; }
  }

  /** Over every run, each removed work has had exactly one migration completed for it, or has been
      given up; a work still held has had neither, unless the worker is about to remove it. */
  lemma {:induction false} OneOutcomePerWork(s: State, acts: seq<Action>)
    requires Inv(s) && s.worker.Idle? && Legal(s, acts)
    ensures Count(acts, Complete) + GivenUp(s, acts)
         == Count(acts, RemoveWork) + if Exec(s, acts).worker.Finished? then 1 else 0
  {
    if acts != [] {
      var before, a := acts[..|acts| - 1], acts[|acts| - 1];
      OneOutcomePerWork(s, before);
      WorkStep(Exec(s, before), a);
    }
  }

  /** Without DISCARD no work is given up: each removed work has had exactly one migration. */
  lemma OneMigrationPerWork(s: State, acts: seq<Action>)
    requires Inv(s) && s.worker.Idle? && Legal(s, acts) && NoDiscard(acts)
    ensures Count(acts, Complete) == Count(acts, RemoveWork) + if Exec(s, acts).worker.Finished? then 1 else 0
  {
    HungryAlways(s, acts);
    OneOutcomePerWork(s, acts);
  }

  /** Without DISCARD, cache block 0 is hashed whenever a demotion submits its trim, which is aimed
      at block 0 whatever block is demoted. */
  lemma TrimHitsUsedBlock(s: State, acts: seq<Action>)
    requires Inv(s) && s.worker.Idle? && Legal(s, acts) && NoDiscard(acts)
    ensures Enabled(Exec(s, acts), Trim) ==> 0 in Exec(s, acts).hashed
  {
    HungryAlways(s, acts);
  }

  /** The worker gives a work up exactly when neither attempt before helped and nothing is dirty. */
  lemma GivenUpExactly(s: State)
    requires Inv(s) && s.worker.Trying?
    ensures Next(s, Attempt).worker.Finished? <==> s.worker.kind.Writeback? && s.dirty == []
  {
    if s.dirty != [] { assert s.dirty[0] in s.dirty; }
  }

  /** A DISCARD does that: after the two failed attempts, discarding the key of the last dirty block
      leaves nothing to write back, and the worker drops its work without migrating anything. */
  lemma DiscardWastesWork(s: State, b: nat)
    requires Inv(s) && s.worker.Trying? && s.worker.kind.Writeback? && s.dirty == [b]
    ensures b < |s.slots| && Enabled(s, Remove(s.slots[b].key))
    ensures var t := Next(s, Remove(s.slots[b].key));
      Next(t, Attempt).worker == Finished(s.worker.key) && !Next(s, Attempt).worker.Finished?
  {
    assert s.dirty[0] in s.dirty;
    var k := s.slots[b].key;
    assert Holds(s, k, b);
    RemoveIs(s, k, b);
    assert Without([b], b) == [];
  }

  lemma {:induction false} NotCounted(acts: seq<Action>, a: Action)
    requires a !in acts
    ensures Count(acts, a) == 0
  {
    if acts != [] { NotCounted(acts[..|acts| - 1], a); }
  }

  lemma OnlyLast(acts: seq<Action>, a: Action)
    requires a !in acts
    ensures Count(acts + [a], a) == 1
  {
    assert (acts + [a])[..|acts|] == acts;
    NotCounted(acts, a);
  }

  // ---------- a discard of a block in flight ----------

  /** The code does not check for this: the lists as it leaves them, if nothing else happens until the
      worker completes, have the block on the free list and on the clean or the dirty list at once, or
      on the free list twice. */
  lemma InFlightDiscardDamages(s: State, k: Key, b: nat, ok: bool)
    requires Inv(s) && Find(s, k) == Some(b) && InFlight(s, b)
    ensures var t := DoRemove(s, k);
      && t.worker == s.worker && |t.slots| == |s.slots| && t.slots[b].pending && !t.slots[b].alloc
      && t.free == s.free + [b]
      && InRange(t.(worker := s.worker.(stage := Moved(ok))))
    ensures var v := DoComplete(DoRemove(s, k).(worker := s.worker.(stage := Moved(ok))));
      if s.worker.kind.Demotion? && ok then v.free == s.free + [b] + [b]
      else b in v.free && (b in v.clean || b in v.dirty)
  {
    InvInRange(s);
    var t := DoRemove(s, k);
    var u := SetPending(t.(worker := s.worker.(stage := Moved(ok))), b, false).(worker := Finished(s.worker.key));
    if Hashed(u, k) { assert Holds(s, k, Find(u, k).value); }
  }

  // ---------- demotion keeps half the cache clean ----------

  /** No demotion takes the clean list below half of the blocks. */
  lemma DemotionKeepsHalf(s: State)
    requires Inv(s) && s.worker.Trying? && s.worker.kind.Demotion?
    ensures InRange(s)
    ensures InFlightCount(Step(s, Attempt)) == 1 <==> |s.clean| > |s.slots| / 2
    ensures InFlightCount(Step(s, Attempt)) == 1 ==> |Step(s, Attempt).clean| >= |s.slots| / 2
  {
    InvInRange(s);
  }
}
