/** What the worker does when left alone with working devices, and how many of its rounds it takes
    to get a free block back. */
module Reclaim {
  import opened Sequences
  import opened Works
  import opened CacheMachine
  import opened CacheInvariant
  import opened CacheRuns

  /** The worker's next action when every transfer succeeds. */
  ghost function NextAction(w: Worker): Action {
    match w
    case Idle => Peek
    case Trying(_, _) => Attempt
    case Moving(kind, _, _, Reserved) => if kind.Demotion? then Trim else Load(true)
    case Moving(_, _, _, Loaded) => Store(true)
    case Moving(_, _, _, Moved(_)) => Complete
    case Finished(_) => RemoveWork
  }

  ghost function PhasesLeft(w: Worker): nat {
    match w
    case Idle => 0
    case Finished(_) => 1
    case Moving(_, _, _, Moved(_)) => 2
    case Moving(_, _, _, Loaded) => 3
    case Moving(_, _, _, Reserved) => 4
    case Trying(Writeback, _) => 5
    case Trying(Demotion, _) => 6
    case Trying(Promotion, _) => 7
  }

  ghost function Advance(s: State): (t: State)
    requires Inv(s)
    ensures Inv(t)
    ensures !s.worker.Idle? ==> PhasesLeft(t.worker) < PhasesLeft(s.worker)
  {
    StepKeeps(s, NextAction(s.worker));
    Step(s, NextAction(s.worker))
  }

  /** Runs the worker to the end of its work. */
  ghost function Drive(s: State): (t: State)
    requires Inv(s)
    ensures Inv(t) && t.worker.Idle?
    decreases PhasesLeft(s.worker)
  {
    if s.worker.Idle? then s else Drive(Advance(s))
  }

  /** One call of `do_migration_work` with no user step in between. */
  ghost function Round(s: State): (t: State)
    requires Inv(s) && s.worker.Idle?
    ensures Inv(t) && t.worker.Idle?
  {
    Drive(Advance(s))
  }

  /** The lists and the queue after the worker's current work, given as its effect on the lists. */
  ghost predicate Leaves(s: State, free: seq<nat>, clean: seq<nat>, dirty: seq<nat>)
    requires Inv(s) && s.queue != []
  {
    var t := Drive(s);
    && t.free == free && t.clean == clean && t.dirty == dirty
    && t.queue == s.queue[1..] && |t.slots| == |s.slots|
  }

  lemma DriveFinished(s: State)
    requires Inv(s) && s.worker.Finished?
    ensures Leaves(s, s.free, s.clean, s.dirty)
  {
    assert Drive(s) == Advance(s);
  }

  lemma DriveDemoted(s: State)
    requires Inv(s) && s.worker.Moving? && s.worker.kind.Demotion? && s.worker.stage == Moved(true)
    ensures Leaves(s, s.free + [s.worker.block], s.clean, s.dirty)
  {
    DriveFinished(Advance(s));
  }

  lemma DriveWritten(s: State)
    requires Inv(s) && s.worker.Moving? && s.worker.kind.Writeback? && s.worker.stage == Moved(true)
    requires !s.slots[s.worker.block].dirty
    ensures Leaves(s, s.free, s.clean + [s.worker.block], s.dirty)
  {
    DriveFinished(Advance(s));
  }

  /** The state with the transfer in stage `g`. */
  ghost function InStage(s: State, g: Stage): (t: State)
    requires Inv(s) && s.worker.Moving? && (g.Loaded? ==> !s.worker.kind.Demotion?)
    ensures Inv(t) && t == s.(worker := s.worker.(stage := g))
  {
    StageKeeps(s, s.worker.(stage := g));
    s.(worker := s.worker.(stage := g))
  }

  lemma AdvanceStage(s: State, g: Stage)
    requires Inv(s) && s.worker.Moving? && (g.Loaded? ==> !s.worker.kind.Demotion?)
    requires g == Loaded || g == Moved(true)
    requires NextAction(s.worker) ==
      if g.Loaded? then Load(true) else if s.worker.kind.Demotion? then Trim else Store(true)
    ensures Drive(s) == Drive(InStage(s, g))
  {
    assert Advance(s) == InStage(s, g);
  }

  lemma DriveTransfer(s: State)
    requires Inv(s) && s.worker.Moving? && s.worker.stage.Reserved?
    ensures Drive(s) == Drive(InStage(s, Moved(true)))
  {
    if s.worker.kind.Demotion? {
      AdvanceStage(s, Moved(true));
    } else {
      AdvanceStage(s, Loaded);
      AdvanceStage(InStage(s, Loaded), Moved(true));
    }
  }

  lemma DriveDemotion(s: State)
    requires Inv(s) && s.worker.Trying? && s.worker.kind.Demotion?
    requires |s.clean| > |s.slots| / 2
    ensures Leaves(s, s.free + [s.clean[0]], s.clean[1..], s.dirty)
  {
    var t := Advance(s);
    DriveTransfer(t);
    DriveDemoted(InStage(t, Moved(true)));
  }

  lemma DriveWriteback(s: State)
    requires Inv(s) && s.worker.Trying? && s.worker.kind.Writeback? && s.dirty != []
    ensures Leaves(s, s.free, s.clean + [s.dirty[0]], s.dirty[1..])
  {
    assert s.dirty[0] in s.dirty;
    var t := Advance(s);
    DriveTransfer(t);
    DriveWritten(InStage(t, Moved(true)));
  }

  /** With nothing free, the work goes on to demotion. */
  lemma RoundToDemotion(s: State)
    requires Inv(s) && s.worker.Idle? && s.queue != [] && s.free == []
    ensures Inv(s.(worker := Trying(Demotion, s.queue[0])))
    ensures Round(s) == Drive(s.(worker := Trying(Demotion, s.queue[0])))
  {
    assert Advance(s) == s.(worker := Trying(Promotion, s.queue[0]));
    assert Advance(Advance(s)) == s.(worker := Trying(Demotion, s.queue[0]));
  }

  lemma DemotionRound(s: State)
    requires Inv(s) && s.worker.Idle? && s.queue != [] && s.free == []
    requires |s.clean| > |s.slots| / 2
    ensures var t := Round(s);
      && t.free == [s.clean[0]] && t.clean == s.clean[1..] && t.dirty == s.dirty
      && t.queue == s.queue[1..] && |t.slots| == |s.slots|
  {
    RoundToDemotion(s);
    DriveDemotion(s.(worker := Trying(Demotion, s.queue[0])));
  }

  lemma WritebackRound(s: State)
    requires Inv(s) && s.worker.Idle? && s.queue != [] && s.free == []
    requires |s.clean| <= |s.slots| / 2
    ensures s.dirty != []
    ensures var t := Round(s);
      && t.free == [] && t.clean == s.clean + [s.dirty[0]] && t.dirty == s.dirty[1..]
      && t.queue == s.queue[1..] && |t.slots| == |s.slots|
  {
    Conservation(s);
    RoundToDemotion(s);
    var u := s.(worker := Trying(Demotion, s.queue[0]));
    assert Advance(u) == s.(worker := Trying(Writeback, s.queue[0]));
    DriveWriteback(Advance(u));
  }

  // ---------- many rounds, with lookups of other threads in between ----------

  ghost function Lookups(s: State, keys: seq<Key>): (t: State)
    requires Inv(s)
    ensures Inv(t) && t.worker == s.worker && t.free == s.free && |t.slots| == |s.slots|
    ensures |t.clean| == |s.clean|
    decreases |keys|
  {
    if keys == [] then s
    else
      StepKeeps(s, Lookup(keys[0]));
      LookupKeepsSizes(s, keys[0]);
      Lookups(Step(s, Lookup(keys[0])), keys[1..])
  }

  lemma LookupKeepsSizes(s: State, k: Key)
    requires Inv(s)
    ensures |DoLookup(s, k).clean| == |s.clean|
  {
    if Hashed(s, k) { WithoutNoDup(s.clean, Find(s, k).value); }
  }

  /** Before each round, some keys are looked up; then the worker has something to do. */
  ghost predicate Fed(s: State, feed: seq<seq<Key>>)
    requires Inv(s) && s.worker.Idle?
    decreases |feed|
  {
    feed != [] ==>
      Lookups(s, feed[0]).queue != [] && Fed(Round(Lookups(s, feed[0])), feed[1..])
  }

  ghost function Rounds(s: State, feed: seq<seq<Key>>): (t: State)
    requires Inv(s) && s.worker.Idle?
    ensures Inv(t) && t.worker.Idle?
    decreases |feed|
  {
    if feed == [] then s else Rounds(Round(Lookups(s, feed[0])), feed[1..])
  }

  /** The writebacks still needed before a demotion is allowed. */
  ghost function Shortfall(s: State): nat {
    if |s.clean| > |s.slots| / 2 then 0 else |s.slots| / 2 + 1 - |s.clean|
  }

  /** From an empty free list, exactly `Shortfall(s)` writebacks and then one demotion bring back
      a free block, however the clean blocks are looked up in between; until then there is none,
      and half of the blocks stay clean. */
  lemma {:induction false} ReclaimBound(s: State, feed: seq<seq<Key>>)
    requires Inv(s) && s.worker.Idle? && s.free == [] && Fed(s, feed)
    requires |feed| <= Shortfall(s) + 1
    ensures var t := Rounds(s, feed);
      && |t.slots| == |s.slots|
      && (|feed| <= Shortfall(s) ==>
            t.free == [] && |t.clean| == |s.clean| + |feed| && |t.dirty| == |s.dirty| - |feed|)
      && (|feed| == Shortfall(s) + 1 ==>
            && |t.free| == 1 && |t.clean| >= |s.slots| / 2
            && |t.clean| == |s.clean| + Shortfall(s) - 1 && |t.dirty| == |s.dirty| - Shortfall(s))
    decreases |feed|
  {
    if feed != [] {
      var u := Lookups(s, feed[0]);
      Conservation(s);
      Conservation(u);
      if |u.clean| > |u.slots| / 2 {
        DemotionRound(u);
        assert feed[1..] == [];
      } else {
        WritebackRound(u);
        assert Shortfall(Round(u)) == Shortfall(s) - 1;
        ReclaimBound(Round(u), feed[1..]);
      }
    }
  }
}
