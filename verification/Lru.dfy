/** Demotion evicts the clean block that was touched longest ago. */
module Lru {
  import opened Sequences
  import opened Works
  import opened CacheMachine
  import opened CacheInvariant
  import opened CacheRuns

  /** The action uses block `b`: a hit on it while it is clean and resident, or the completion of
      its promotion or writeback. */
  ghost predicate Touches(s: State, a: Action, b: nat) {
    match a
    case Lookup(k) => CleanHit(s, k, b)
    case LookupInsert(k) => CleanHit(s, k, b)
    case Complete => InFlight(s, b) && !s.worker.kind.Demotion? && s.worker.stage == Moved(true)
    case _ => false
  }

  ghost predicate CleanHit(s: State, k: Key, b: nat) {
    Holds(s, k, b) && !s.slots[b].pending && !s.slots[b].dirty
  }

  /** The number of the last action of the run that touched `b`, or 0. It is read off the history,
      not off the lists. */
  ghost function LastTouch(s: State, acts: seq<Action>, b: nat): nat
    requires Inv(s) && Legal(s, acts)
  {
    if acts == [] then 0
    else
      var before := acts[..|acts| - 1];
      if Touches(Exec(s, before), acts[|acts| - 1], b) then |acts| else LastTouch(s, before, b)
  }

  /** No writeback of the run fails. */
  ghost predicate WritebacksSucceed(s: State, acts: seq<Action>)
    requires Inv(s) && Legal(s, acts)
  {
    acts != [] ==>
      var before := acts[..|acts| - 1];
      && WritebacksSucceed(s, before)
      && (acts[|acts| - 1].Complete? && Exec(s, before).worker.kind.Writeback? ==>
            Exec(s, before).worker.stage.ok)
  }

  lemma {:induction false} LastTouchBound(s: State, acts: seq<Action>, b: nat)
    requires Inv(s) && Legal(s, acts)
    ensures LastTouch(s, acts, b) <= |acts|
  {
    if acts != [] { LastTouchBound(s, acts[..|acts| - 1], b); }
  }

  ghost predicate Ordered(s: State, acts: seq<Action>, clean: seq<nat>)
    requires Inv(s) && Legal(s, acts)
  {
    forall i, j :: 0 <= i < j < |clean| ==>
      LastTouch(s, acts, clean[i]) < LastTouch(s, acts, clean[j])
  }

  /** What one action can do to the clean list: drop block `x`, append it, or both. */
  ghost predicate CleanMoves(u: State, a: Action, x: nat, added: bool)
    requires InRange(u) && Enabled(u, a)
  {
    && Step(u, a).clean == Without(u.clean, x) + (if added then [x] else [])
    && (added ==> Touches(u, a, x))
    && (forall b: nat :: Touches(u, a, b) ==> b == x)
  }

  lemma LookupMoves(u: State, a: Action, k: Key) returns (x: nat, added: bool)
    requires Inv(u) && (a == Lookup(k) || a == LookupInsert(k))
    ensures InRange(u) && CleanMoves(u, a, x, added)
  {
    InvInRange(u);
    x, added := |u.slots|, false;
    if Hashed(u, k) {
      x := Find(u, k).value;
      added := CleanHit(u, k, x);
    }
  }

  lemma CompleteMoves(u: State) returns (x: nat, added: bool)
    requires Inv(u) && Enabled(u, Complete)
    requires !u.worker.kind.Promotion? ==> u.worker.stage.ok
    ensures InRange(u) && CleanMoves(u, Complete, x, added)
  {
    InvInRange(u);
    x := u.worker.block;
    added := u.worker.stage.ok && !u.worker.kind.Demotion? && !u.slots[x].dirty;
  }

  lemma CleanChange(u: State, a: Action) returns (x: nat, added: bool)
    requires Inv(u) && Enabled(u, a)
    requires a.Complete? && !u.worker.kind.Promotion? ==> u.worker.stage.ok
    ensures InRange(u) && CleanMoves(u, a, x, added)
  {
    InvInRange(u);
    x, added := |u.slots|, false;
    match a {
      case Lookup(k) => x, added := LookupMoves(u, a, k);
      case LookupInsert(k) => x, added := LookupMoves(u, a, k);
      case Complete => x, added := CompleteMoves(u);
      case Remove(k) => if Hashed(u, k) { x := Find(u, k).value; }
      case SetDirty(b) => x := b;
      case Attempt =>
        if u.worker.kind.Demotion? && CanReserve(u, Demotion) {
          x := u.clean[0];
          WithoutHead(u.clean);
        }
      case _ =>
    }
  }

  ghost predicate Increasing(clean: seq<nat>, time: nat -> nat) {
    forall i, j :: 0 <= i < j < |clean| ==> time(clean[i]) < time(clean[j])
  }

  lemma IncreasingAfter(clean: seq<nat>, x: nat, added: bool, was: nat -> nat, now: nat -> nat)
    requires NoDup(clean) && Increasing(clean, was)
    requires forall b: nat :: b != x ==> now(b) == was(b)
    requires added ==> forall b: nat :: was(b) < now(x)
    ensures Increasing(Without(clean, x) + if added then [x] else [], now)
  {
    var kept := Without(clean, x);
    var all := kept + if added then [x] else [];
    forall i, j | 0 <= i < j < |all| ensures now(all[i]) < now(all[j]) {
      assert kept[i] in kept;
      if j < |kept| {
        var i', j' := WithoutSub(clean, x, i, j);
        assert kept[j] in kept;
      }
    }
  }

  lemma LastTouchStep(s: State, before: seq<Action>, a: Action, b: nat)
    requires Inv(s) && Legal(s, before) && Legal(s, before + [a])
    ensures LastTouch(s, before + [a], b)
         == if Touches(Exec(s, before), a, b) then |before| + 1 else LastTouch(s, before, b)
    ensures LastTouch(s, before, b) < |before| + 1
    ensures Exec(s, before + [a]) == StepOf(Exec(s, before), a)
  {
    assert (before + [a])[..|before|] == before;
    LastTouchBound(s, before, b);
    InvInRange(Exec(s, before));
  }

  ghost function StepOf(u: State, a: Action): State
    requires Inv(u)
  {
    if InRange(u) && Enabled(u, a) then Step(u, a) else u
  }

  lemma OrderKept(s: State, before: seq<Action>, a: Action)
    requires Inv(s) && Legal(s, before) && Legal(s, before + [a])
    requires Enabled(Exec(s, before), a)
    requires Ordered(s, before, Exec(s, before).clean)
    requires a.Complete? && Exec(s, before).worker.Moving? && !Exec(s, before).worker.kind.Promotion?
      ==> Exec(s, before).worker.stage == Moved(true)
    ensures Ordered(s, before + [a], Exec(s, before + [a]).clean)
  {
    var u := Exec(s, before);
    var x, added := CleanChange(u, a);
    var was := (b: nat) => LastTouch(s, before, b);
    var now := (b: nat) => LastTouch(s, before + [a], b);
    forall b: nat
      ensures now(b) == if Touches(u, a, b) then |before| + 1 else was(b)
      ensures was(b) < |before| + 1
      ensures Exec(s, before + [a]) == StepOf(u, a)
    {
      LastTouchStep(s, before, a, b);
    }
    LastTouchStep(s, before, a, x);
    assert Increasing(u.clean, was);
    IncreasingAfter(u.clean, x, added, was, now);
    assert Increasing(Exec(s, before + [a]).clean, now);
  }

  /** A demotion whose trim always reports success, as the worker's does. */
  ghost predicate DemotionsSucceed(u: State) {
    u.worker.Moving? && u.worker.kind.Demotion? && u.worker.stage.Moved? ==> u.worker.stage.ok
  }

  /** Over any run with successful writebacks, the clean list is ordered by latest touch. */
  lemma {:induction false} CleanIsLru(s: State, acts: seq<Action>)
    requires Inv(s) && s.clean == [] && DemotionsSucceed(s)
    requires Legal(s, acts) && WritebacksSucceed(s, acts)
    ensures Ordered(s, acts, Exec(s, acts).clean)
    ensures DemotionsSucceed(Exec(s, acts))
  {
    if acts != [] {
      var before, a := acts[..|acts| - 1], acts[|acts| - 1];
      assert acts == before + [a];
      CleanIsLru(s, before);
      OrderKept(s, before, a);
    }
  }

  /** So a demotion always reserves the least recently touched of the clean blocks. */
  lemma DemotesLeastRecentlyTouched(s: State, acts: seq<Action>, c: nat)
    requires Inv(s) && s.clean == [] && s.worker.Idle?
    requires Legal(s, acts + [Attempt]) && Legal(s, acts) && WritebacksSucceed(s, acts)
    requires var u := Exec(s, acts); u.worker.kind.Demotion? && |u.clean| > |u.slots| / 2
    requires c in Exec(s, acts).clean
    ensures var t := Exec(s, acts + [Attempt]);
      && t.worker.Moving? && t.worker.kind.Demotion? && t.worker.block in Exec(s, acts).clean
      && LastTouch(s, acts, t.worker.block) <= LastTouch(s, acts, c)
  {
    assert (acts + [Attempt])[..|acts|] == acts;
    CleanIsLru(s, acts);
    var u := Exec(s, acts);
    var j :| 0 <= j < |u.clean| && u.clean[j] == c;
  }
}
