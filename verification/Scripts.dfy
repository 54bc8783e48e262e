/** Rounds of the worker step by step, and runs of events made of them, for caches of any size. */
module Scripts {
  import opened Works
  import opened CacheMachine
  import opened CacheInvariant
  import opened Rounds
  import opened FlatStorage
  import opened Coherence
  import opened Limits

  // ---------- one event after the other ----------

  /** Reads, and steps of the worker that leave files alone and complete no failed writeback. */
  ghost predicate Mild(g: Addresses, s: State, a: Action) {
    match a
    case Lookup(k) => Used(g, k)
    case Store(ok) => ok && s.worker.Moving? && s.worker.kind.Promotion?
    case Complete => s.worker.Moving? && !(s.worker.kind.Writeback? && s.worker.stage == Moved(false))
    case _ => WorkerAction(a)
  }

  function AsEvent(a: Action): Event {
    if a.Lookup? then Read(a.key.name, 8 * a.key.page, 1) else Work(a, [])
  }

  /** The allowed run `es` leads from `d` to a cache in state `s`, and leaves the files alone. */
  ghost predicate Leads(g: Addresses, d: Disk, es: seq<Event>, s: State) {
    && Inv(d.cache) && AllPossible(d, g, es) && AllAllowed(d, g, es)
    && Ending(d, g, es).cache == s && Ending(d, g, es).origin == d.origin
  }

  lemma MildStep(d: Disk, g: Addresses, a: Action, t: State)
    requires Inv(d.cache) && Goes(d.cache, a, t) && Mild(g, d.cache, a)
    ensures Allowed(d, g, AsEvent(a))
    ensures var e := Apply(d, g, AsEvent(a));
      e.cache == t && e.origin == d.origin && e.trims == d.trims + if a.Trim? then 1 else 0
  {
  }

  lemma Extend(g: Addresses, d: Disk, es: seq<Event>, s: State, a: Action, t: State) returns (es': seq<Event>)
    requires Leads(g, d, es, s) && Goes(s, a, t) && Mild(g, s, a)
    ensures Leads(g, d, es', t) && es' == es + [AsEvent(a)]
    ensures Ending(d, g, es').trims == Ending(d, g, es).trims + if a.Trim? then 1 else 0
  {
    es' := es + [AsEvent(a)];
    assert es'[..|es|] == es;
    MildStep(Ending(d, g, es), g, a, t);
  }

  /** What reads and worker's steps do not change, and that they write nothing. */
  ghost predicate Follows(g: Addresses, es: seq<Event>, es': seq<Event>, k: Key, flat: Flat) {
    FlatAfter(flat, es') == FlatAfter(flat, es) && (AllQuiet(g, es, k) ==> AllQuiet(g, es', k))
  }

  lemma StepFollows(g: Addresses, es: seq<Event>, s: State, a: Action, k: Key, flat: Flat)
    requires Mild(g, s, a)
    ensures Follows(g, es, es + [AsEvent(a)], k, flat)
  {
    assert (es + [AsEvent(a)])[..|es|] == es;
  }

  ghost predicate Chain(g: Addresses, states: seq<State>, acts: seq<Action>) {
    |states| == |acts| + 1 &&
    forall i :: 0 <= i < |acts| ==> Goes(states[i], acts[i], states[i + 1]) && Mild(g, states[i], acts[i])
  }

  /** A run goes on through a chain of states. */
  lemma {:induction false} Continue(g: Addresses, d: Disk, es: seq<Event>, states: seq<State>, acts: seq<Action>,
                                    k: Key, flat: Flat) returns (es': seq<Event>)
    requires Chain(g, states, acts) && Leads(g, d, es, states[0])
    ensures Leads(g, d, es', states[|acts|]) && Follows(g, es, es', k, flat)
    ensures Ending(d, g, es').trims >= Ending(d, g, es).trims + if Trim in acts then 1 else 0
  {
    es' := es;
    if acts != [] {
      var n := |acts| - 1;
      assert acts == acts[..n] + [acts[n]];
      var before := Continue(g, d, es, states[..n + 1], acts[..n], k, flat);
      assert Goes(states[n], acts[n], states[n + 1]) && Mild(g, states[n], acts[n]);
      es' := Extend(g, d, before, states[n], acts[n], states[n + 1]);
      StepFollows(g, before, states[n], acts[n], k, flat);
    }
  }

  // ---------- the worker's rounds ----------

  ghost predicate Resting(s: State) {
    Inv(s) && s.worker.Idle? && s.queue == []
  }

  /** A read of `k`, and the round that promotes it. */
  ghost function Fetch(s: State, k: Key, i: nat): State
    requires s.free != [] && s.free[0] < |s.slots|
  {
    var b := s.free[0];
    var t := s.(queue := [k], slots := s.slots[b := Slot(k, true, false, true)], free := s.free[1..]);
    var u := t.(slots := s.slots[b := Slot(k, false, false, true)], hashed := s.hashed + {b}, clean := s.clean + [b]);
    if i == 0 then s
    else if i == 1 then s.(queue := [k])
    else if i == 2 then s.(queue := [k], worker := Trying(Promotion, k))
    else if i == 3 then t.(worker := Moving(Promotion, k, b, Reserved))
    else if i == 4 then t.(worker := Moving(Promotion, k, b, Loaded))
    else if i == 5 then t.(worker := Moving(Promotion, k, b, Moved(true)))
    else if i == 6 then u.(worker := Finished(k))
    else u.(queue := [])
  }

  function FetchAct(k: Key, i: nat): Action {
    if i == 0 then Lookup(k)
    else if i == 1 then Peek
    else if i == 2 then Attempt
    else if i == 3 then Load(true)
    else if i == 4 then Store(true)
    else if i == 5 then Complete
    else RemoveWork
  }

  lemma FetchGoes(g: Addresses, s: State, k: Key, i: nat)
    requires Resting(s) && s.free != [] && s.free[0] < |s.slots| && !Hashed(s, k) && Used(g, k) && i < 7
    ensures Goes(Fetch(s, k, i), FetchAct(k, i), Fetch(s, k, i + 1)) && Mild(g, Fetch(s, k, i), FetchAct(k, i))
  {
    InvInRange(s);
  }

  /** A read of `k` in a full cache, and the round that demotes the oldest clean block. */
  ghost function Evict(s: State, k: Key, i: nat): State
    requires s.clean != [] && s.clean[0] < |s.slots|
  {
    var b := s.clean[0];
    var t := s.(queue := [k], slots := s.slots[b := s.slots[b].(pending := true)], clean := s.clean[1..]);
    if i == 0 then s
    else if i == 1 then s.(queue := [k])
    else if i == 2 then s.(queue := [k], worker := Trying(Promotion, k))
    else if i == 3 then s.(queue := [k], worker := Trying(Demotion, k))
    else if i == 4 then t.(worker := Moving(Demotion, k, b, Reserved))
    else if i == 5 then t.(worker := Moving(Demotion, k, b, Moved(true)))
    else t.(slots := s.slots[b := s.slots[b].(pending := false, alloc := false)], hashed := s.hashed - {b},
            free := s.free + [b], worker := Finished(k))
  }

  function EvictAct(k: Key, i: nat): Action {
    if i == 0 then Lookup(k)
    else if i == 1 then Peek
    else if i <= 3 then Attempt
    else if i == 4 then Trim
    else Complete
  }

  ghost predicate Evictable(s: State, k: Key) {
    Resting(s) && s.free == [] && |s.clean| > |s.slots| / 2 && s.clean[0] < |s.slots| && !Hashed(s, k)
  }

  lemma EvictGoes(g: Addresses, s: State, k: Key, i: nat)
    requires Evictable(s, k) && Used(g, k) && i < 6
    ensures Goes(Evict(s, k, i), EvictAct(k, i), Evict(s, k, i + 1)) && Mild(g, Evict(s, k, i), EvictAct(k, i))
  {
    InvInRange(s);
    if i == 5 { EvictCompletes(s, k); }
  }

  lemma EvictCompletes(s: State, k: Key)
    requires Evictable(s, k) && InRange(Evict(s, k, 5))
    ensures DoComplete(Evict(s, k, 5)) == Evict(s, k, 6)
  {
    var b, q := s.clean[0], s.slots[s.clean[0]].key;
    assert b in s.clean;
    var t := SetPending(Evict(s, k, 5), b, false).(worker := Finished(k));
    assert Holds(t, q, b) && Holds(s, q, b);
    assert Holds(s, q, Find(t, q).value);
  }

  /** A read of `k` in a full cache with too little clean, and a writeback that fails to load. */
  ghost function Fail(s: State, k: Key, i: nat): State
    requires s.dirty != [] && s.dirty[0] < |s.slots|
  {
    var b := s.dirty[0];
    var t := s.(queue := [k], slots := s.slots[b := s.slots[b].(pending := true, dirty := false)],
                dirty := s.dirty[1..]);
    if i == 0 then s
    else if i == 1 then s.(queue := [k])
    else if i == 2 then s.(queue := [k], worker := Trying(Promotion, k))
    else if i == 3 then s.(queue := [k], worker := Trying(Demotion, k))
    else if i == 4 then s.(queue := [k], worker := Trying(Writeback, k))
    else if i == 5 then t.(worker := Moving(Writeback, k, b, Reserved))
    else t.(worker := Moving(Writeback, k, b, Moved(false)))
  }

  function FailAct(k: Key, i: nat): Action {
    if i == 0 then Lookup(k)
    else if i == 1 then Peek
    else if i <= 4 then Attempt
    else Load(false)
  }

  ghost predicate Stuck(s: State, k: Key) {
    && Resting(s) && s.free == [] && |s.clean| <= |s.slots| / 2 && s.dirty != []
    && s.dirty[0] < |s.slots| && !s.slots[s.dirty[0]].pending && !Hashed(s, k)
  }

  lemma FailGoes(g: Addresses, s: State, k: Key, i: nat)
    requires Stuck(s, k) && Used(g, k) && i < 6
    ensures Goes(Fail(s, k, i), FailAct(k, i), Fail(s, k, i + 1)) && Mild(g, Fail(s, k, i), FailAct(k, i))
  {
    InvInRange(s);
  }

  /** The state after the failed writeback has been completed and its work removed. */
  ghost function Failed(s: State): State
    requires s.dirty != [] && s.dirty[0] < |s.slots|
  {
    var b := s.dirty[0];
    s.(slots := s.slots[b := s.slots[b].(pending := false, dirty := false)], dirty := s.dirty[1..],
       clean := [b] + s.clean)
  }

  /** The state in between. */
  ghost function Failing(s: State, k: Key): State
    requires s.dirty != [] && s.dirty[0] < |s.slots|
  {
    Failed(s).(queue := [k], worker := Finished(k))
  }

  lemma FailCompletes(s: State, k: Key)
    requires Stuck(s, k)
    ensures Goes(Fail(s, k, 6), Complete, Failing(s, k))
  {
    InvInRange(s);
  }

  lemma FailRemoves(s: State, k: Key)
    requires Stuck(s, k)
    ensures Goes(Failing(s, k), RemoveWork, Failed(s))
  {
    InvInRange(s);
  }

  // ---------- runs of a round, or the first part of one ----------

  lemma FetchRun(g: Addresses, d: Disk, es: seq<Event>, s: State, q: Key, upTo: nat, k: Key, flat: Flat)
    returns (es': seq<Event>)
    requires Leads(g, d, es, s) && Resting(s) && s.free != [] && s.free[0] < |s.slots|
    requires !Hashed(s, q) && Used(g, q) && upTo <= 7
    ensures Leads(g, d, es', Fetch(s, q, upTo)) && Follows(g, es, es', k, flat)
  {
    var states := seq(upTo + 1, i requires 0 <= i => Fetch(s, q, i));
    var acts := seq(upTo, i requires 0 <= i => FetchAct(q, i));
    forall i | 0 <= i < |acts| ensures Goes(states[i], acts[i], states[i + 1]) && Mild(g, states[i], acts[i]) {
      FetchGoes(g, s, q, i);
    }
    es' := Continue(g, d, es, states, acts, k, flat);
  }

  lemma EvictRun(g: Addresses, d: Disk, es: seq<Event>, s: State, q: Key, upTo: nat, k: Key, flat: Flat)
    returns (es': seq<Event>)
    requires Leads(g, d, es, s) && Evictable(s, q) && Used(g, q) && upTo <= 6
    ensures Leads(g, d, es', Evict(s, q, upTo)) && Follows(g, es, es', k, flat)
    ensures upTo >= 5 ==> Ending(d, g, es').trims > 0
  {
    var states := seq(upTo + 1, i requires 0 <= i => Evict(s, q, i));
    var acts := seq(upTo, i requires 0 <= i => EvictAct(q, i));
    forall i | 0 <= i < |acts| ensures Goes(states[i], acts[i], states[i + 1]) && Mild(g, states[i], acts[i]) {
      EvictGoes(g, s, q, i);
    }
    if upTo >= 5 { assert acts[4] == Trim; }
    es' := Continue(g, d, es, states, acts, k, flat);
  }

  lemma FailRun(g: Addresses, d: Disk, es: seq<Event>, s: State, q: Key, upTo: nat, k: Key, flat: Flat)
    returns (es': seq<Event>)
    requires Leads(g, d, es, s) && Stuck(s, q) && Used(g, q) && upTo <= 6
    ensures Leads(g, d, es', Fail(s, q, upTo)) && Follows(g, es, es', k, flat)
  {
    var states := seq(upTo + 1, i requires 0 <= i => Fail(s, q, i));
    var acts := seq(upTo, i requires 0 <= i => FailAct(q, i));
    forall i | 0 <= i < |acts| ensures Goes(states[i], acts[i], states[i + 1]) && Mild(g, states[i], acts[i]) {
      FailGoes(g, s, q, i);
    }
    es' := Continue(g, d, es, states, acts, k, flat);
  }
}
