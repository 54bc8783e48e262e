/** The round of the worker (`do_migration_work`) as a schedule: the order of its own steps and of the
    users' calls between them, and what it leaves when no user interferes. */
module Rounds {
  import opened Sequences
  import opened Works
  import opened CacheMachine
  import opened CacheInvariant
  import opened CacheRuns

  // ---------- users as the worker sees them ----------

  /** A user's call on the mapping. */
  datatype UserCall =
    | CallLookup(name: Name, page: nat)
    | CallInsert(name: Name, page: nat)
    | CallSetDirty(block: nat)
    | CallRemove(name: Name, page: nat)

  ghost predicate UserAction(a: Action) {
    a.Lookup? || a.LookupInsert? || a.SetDirty? || a.Remove?
  }

  /** What a call does in state `s`: nothing if its block number is out of range, or if it is a discard
      of the block in flight. */
  ghost function ActionOf(s: State, c: UserCall): (a: Option<Action>)
    ensures a.Some? ==> UserAction(a.value) && Enabled(s, a.value)
  {
    match c
    case CallLookup(name, page) => Some(Lookup(Key(name, page / 8)))
    case CallInsert(name, page) => Some(LookupInsert(Key(name, page / 8)))
    case CallSetDirty(block) => if block < |s.slots| then Some(SetDirty(block)) else None
    case CallRemove(name, page) =>
      var a := Remove(Key(name, page / 8));
      if Enabled(s, a) then Some(a) else None
  }

  // ---------- schedules ----------

  /** An entry of a schedule: a step of the worker, or a call of a user. */
  datatype Item = W(step: Action) | U(call: UserCall)

  ghost function DoItem(s: State, x: Item): (t: State)
    requires Inv(s) && (x.W? ==> Enabled(s, x.step))
    ensures Inv(t)
  {
    match x
    case W(a) => Next(s, a)
    case U(c) =>
      match ActionOf(s, c)
      case None => s
      case Some(a) => Next(s, a)
  }

  /** Every step of the worker is one it could take when its turn came. */
  ghost predicate Playable(s: State, log: seq<Item>)
    requires Inv(s)
    decreases |log|, 0
  {
    log != [] ==>
      var before, x := log[..|log| - 1], log[|log| - 1];
      Playable(s, before) && (x.W? ==> Enabled(Play(s, before), x.step))
  }

  ghost function Play(s: State, log: seq<Item>): (t: State)
    requires Inv(s) && Playable(s, log)
    ensures Inv(t)
    decreases |log|, 1
  {
    if log == [] then s else DoItem(Play(s, log[..|log| - 1]), log[|log| - 1])
  }

  lemma UserKeepsWorker(s: State, c: UserCall)
    requires Inv(s)
    ensures DoItem(s, U(c)).worker == s.worker
  {
  }

  lemma PlaySnoc(s: State, log: seq<Item>, x: Item)
    requires Inv(s) && Playable(s, log) && (x.W? ==> Enabled(Play(s, log), x.step))
    ensures Playable(s, log + [x]) && Play(s, log + [x]) == DoItem(Play(s, log), x)
  {
    assert (log + [x])[..|log|] == log;
  }

  /** The machine's action of an entry, if it has one. */
  ghost function ActionsOf(s: State, x: Item): seq<Action> {
    match x
    case W(a) => [a]
    case U(c) =>
      match ActionOf(s, c)
      case None => []
      case Some(a) => [a]
  }

  /** The machine's actions of a schedule. */
  ghost function RunOf(s: State, log: seq<Item>): seq<Action>
    requires Inv(s) && Playable(s, log)
  {
    if log == [] then []
    else RunOf(s, log[..|log| - 1]) + ActionsOf(Play(s, log[..|log| - 1]), log[|log| - 1])
  }

  lemma OneMore(s: State, acts: seq<Action>, u: State, x: Item)
    requires Inv(s) && Legal(s, acts) && Exec(s, acts) == u && (x.W? ==> Enabled(u, x.step))
    ensures Legal(s, acts + ActionsOf(u, x)) && Exec(s, acts + ActionsOf(u, x)) == DoItem(u, x)
  {
    if ActionsOf(u, x) == [] {
      assert acts + [] == acts;
    } else {
      ExecSnoc(s, acts, ActionsOf(u, x)[0]);
    }
  }

  /** They are a run of the machine that ends where the schedule does. */
  lemma {:induction false} RunOfIsRun(s: State, log: seq<Item>)
    requires Inv(s) && Playable(s, log)
    ensures Legal(s, RunOf(s, log)) && Exec(s, RunOf(s, log)) == Play(s, log)
  {
    if log != [] {
      RunOfIsRun(s, log[..|log| - 1]);
      OneMore(s, RunOf(s, log[..|log| - 1]), Play(s, log[..|log| - 1]), log[|log| - 1]);
    }
  }

  /** The worker's steps of the run are those of the schedule. */
  lemma {:induction false} NotInRun(s: State, log: seq<Item>, a: Action)
    requires Inv(s) && Playable(s, log) && !UserAction(a) && W(a) !in log
    ensures a !in RunOf(s, log)
  {
    if log != [] {
      assert log == log[..|log| - 1] + [log[|log| - 1]];
      NotInRun(s, log[..|log| - 1], a);
    }
  }

  // ---------- the program of the worker ----------

  function Us(calls: seq<UserCall>): (r: seq<Item>)
    ensures |r| == |calls| && forall i :: 0 <= i < |r| ==> r[i] == U(calls[i])
  {
    seq(|calls|, i requires 0 <= i < |calls| => U(calls[i]))
  }

  /** Users' calls before each of the attempts and the removal, and around the parts of a transfer. */
  datatype Calls = Calls(between: seq<seq<UserCall>>, during: seq<seq<UserCall>>)

  ghost predicate WellFormed(u: Calls) {
    |u.between| == 4 && |u.during| == 3
  }

  /** A transfer of a block: both halves, or only the first if that fails. */
  function Transferring(loadOk: bool, storeOk: bool, during: seq<seq<UserCall>>): seq<Item>
    requires |during| == 3
  {
    Us(during[0]) + [W(Load(loadOk))] + Us(during[1]) + (if loadOk then [W(Store(storeOk))] else []) + Us(during[2])
  }

  function Trimming(during: seq<seq<UserCall>>): seq<Item>
    requires |during| == 3
  {
    Us(during[0]) + [W(Trim)] + Us(during[1])
  }

  /** An attempt, and if it reserved a block, its transfer and its completion. */
  function Attempting(took: bool, move: seq<Item>): seq<Item> {
    [W(Attempt)] + if took then move + [W(Complete)] else []
  }

  /** The attempts of a round that ends with the migration `done`, and that migration. */
  function Serving(done: Option<Kind>, loadOk: bool, storeOk: bool, u: Calls): seq<Item>
    requires |u.between| == 4 && |u.during| == 3
  {
    var move := Transferring(loadOk, storeOk, u.during);
    if done == Some(Promotion) then Attempting(true, move)
    else Attempting(false, move) + Us(u.between[1]) + MakingRoom(done, loadOk, storeOk, u)
  }

  function MakingRoom(done: Option<Kind>, loadOk: bool, storeOk: bool, u: Calls): seq<Item>
    requires |u.between| == 4 && |u.during| == 3
  {
    var move := Trimming(u.during);
    if done == Some(Demotion) then Attempting(true, move)
    else Attempting(false, move) + Saving(done != None, loadOk, storeOk, u)
  }

  /** The third attempt, after the users' calls before it. */
  function Saving(took: bool, loadOk: bool, storeOk: bool, u: Calls): seq<Item>
    requires |u.between| == 4 && |u.during| == 3
  {
    Us(u.between[2]) + Attempting(took, Transferring(loadOk, storeOk, u.during))
  }

  /** From the first attempt to the removal. */
  function Middle(done: Option<Kind>, loadOk: bool, storeOk: bool, u: Calls): seq<Item>
    requires |u.between| == 4 && |u.during| == 3
  {
    Us(u.between[0]) + Serving(done, loadOk, storeOk, u) + Us(u.between[3])
  }

  /** The whole round. */
  function Round(done: Option<Kind>, loadOk: bool, storeOk: bool, u: Calls): seq<Item>
    requires |u.between| == 4 && |u.during| == 3
  {
    [W(Peek)] + Middle(done, loadOk, storeOk, u) + [W(RemoveWork)]
  }

  ghost predicate Removes(log: seq<Item>) {
    W(RemoveWork) in log
  }

  lemma RemovesConcat(a: seq<Item>, b: seq<Item>)
    ensures Removes(a + b) <==> Removes(a) || Removes(b)
  {
  }

  lemma TransferKeepsWork(loadOk: bool, storeOk: bool, during: seq<seq<UserCall>>)
    requires |during| == 3
    ensures !Removes(Transferring(loadOk, storeOk, during)) && !Removes(Trimming(during))
  {
  }

  lemma AttemptKeepsWork(took: bool, move: seq<Item>)
    requires !Removes(move)
    ensures !Removes(Attempting(took, move))
  {
  }

  /** The work is not removed before the end of the round. */
  lemma MiddleKeepsWork(done: Option<Kind>, loadOk: bool, storeOk: bool, u: Calls)
    requires |u.between| == 4 && |u.during| == 3
    ensures !Removes([W(Peek)] + Middle(done, loadOk, storeOk, u))
  {
    var move, trim := Transferring(loadOk, storeOk, u.during), Trimming(u.during);
    TransferKeepsWork(loadOk, storeOk, u.during);
    AttemptKeepsWork(false, move);
    AttemptKeepsWork(true, move);
    AttemptKeepsWork(false, trim);
    AttemptKeepsWork(true, trim);
    RemovesConcat(Us(u.between[2]), Attempting(done != None, move));
    RemovesConcat(Attempting(false, trim), Saving(done != None, loadOk, storeOk, u));
    RemovesConcat(Attempting(false, move), Us(u.between[1]));
    RemovesConcat(Attempting(false, move) + Us(u.between[1]), MakingRoom(done, loadOk, storeOk, u));
    RemovesConcat(Us(u.between[0]), Serving(done, loadOk, storeOk, u));
    RemovesConcat(Us(u.between[0]) + Serving(done, loadOk, storeOk, u), Us(u.between[3]));
    RemovesConcat([W(Peek)], Middle(done, loadOk, storeOk, u));
  }

  // ---------- a round that no user interferes with ----------

  ghost predicate Quiet(u: Calls) {
    u == Calls([[], [], [], []], [[], [], []])
  }

  /** Which migration the worker chooses. */
  ghost function Chosen(s: State): Option<Kind> {
    if s.free != [] then Some(Promotion) else ChosenRoom(s)
  }

  ghost function ChosenRoom(s: State): Option<Kind> {
    if |s.clean| > |s.slots| / 2 then Some(Demotion)
    else if s.dirty != [] then Some(Writeback)
    else None
  }

  /** What the round leaves. A promotion puts its block last on the clean list, or last on the free list
      if a transfer failed; a demotion frees the first clean block; a writeback puts the first dirty
      block last on the clean list, or first if a transfer failed. */
  ghost function RoundEnd(s: State, ok: bool): State
    requires Inv(s) && s.worker.Idle? && s.queue != []
  {
    InvInRange(s);
    var k, t := s.queue[0], s.(queue := s.queue[1..]);
    match Chosen(s)
    case Some(Promotion) =>
      var b := s.free[0];
      if ok then t.(slots := s.slots[b := Slot(k, false, false, true)], free := s.free[1..],
                    clean := s.clean + [b], hashed := s.hashed + {b})
      else t.(slots := s.slots[b := Slot(k, false, false, false)], free := s.free[1..] + [b])
    case Some(Demotion) =>
      var b := s.clean[0];
      t.(slots := s.slots[b := s.slots[b].(alloc := false)], free := [b], clean := s.clean[1..],
         hashed := s.hashed - {b})
    case Some(Writeback) =>
      var b := s.dirty[0];
      t.(slots := s.slots[b := s.slots[b].(dirty := false)], dirty := s.dirty[1..],
         clean := if ok then s.clean + [b] else [b] + s.clean)
    case None => t
  }

  /** The machine's step, on states written out. */
  ghost predicate Goes(s: State, a: Action, t: State) {
    InRange(s) && Enabled(s, a) && Step(s, a) == t
  }

  function Ws(acts: seq<Action>): (r: seq<Item>)
    ensures |r| == |acts| && forall i :: 0 <= i < |r| ==> r[i] == W(acts[i])
  {
    seq(|acts|, i requires 0 <= i < |acts| => W(acts[i]))
  }

  ghost predicate Linked(states: seq<State>, acts: seq<Action>) {
    |states| == |acts| + 1 && forall i :: 0 <= i < |acts| ==> Goes(states[i], acts[i], states[i + 1])
  }

  lemma {:induction false} PlayLinked(states: seq<State>, acts: seq<Action>, log: seq<Item>)
    requires Linked(states, acts) && Inv(states[0]) && log == Ws(acts)
    ensures Playable(states[0], log) && Play(states[0], log) == states[|acts|]
  {
    if acts != [] {
      var n := |acts| - 1;
      assert log[..n] == Ws(acts[..n]);
      PlayLinked(states[..n + 1], acts[..n], log[..n]);
      LastGoes(states[n], acts[n], states[n + 1]);
    }
  }

  lemma LastGoes(s: State, a: Action, t: State)
    requires Inv(s) && Goes(s, a, t)
    ensures Enabled(s, a) && DoItem(s, W(a)) == t
  {
  }

  // Each kind of round, step by step.

  ghost function Promoting(s: State, loadOk: bool, storeOk: bool, i: nat): State
    requires Inv(s) && s.worker.Idle? && s.queue != [] && s.free != []
  {
    InvInRange(s);
    var k, b, last := s.queue[0], s.free[0], if loadOk then 4 else 3;
    var t := s.(slots := s.slots[b := Slot(k, true, false, true)], free := s.free[1..]);
    if i == 0 then s
    else if i == 1 then s.(worker := Trying(Promotion, k))
    else if i <= last then
      t.(worker := Moving(Promotion, k, b,
                          if i == 2 then Reserved else if i < last then Loaded else Moved(loadOk && storeOk)))
    else if i == last + 1 then RoundEnd(s, loadOk && storeOk).(queue := s.queue, worker := Finished(k))
    else RoundEnd(s, loadOk && storeOk)
  }

  function PromotingActs(loadOk: bool, storeOk: bool): seq<Action> {
    [Peek, Attempt, Load(loadOk)] + (if loadOk then [Store(storeOk)] else []) + [Complete, RemoveWork]
  }

  lemma PromotingGoes(s: State, loadOk: bool, storeOk: bool, i: nat)
    requires Inv(s) && s.worker.Idle? && s.queue != [] && s.free != [] && i < |PromotingActs(loadOk, storeOk)|
    ensures Goes(Promoting(s, loadOk, storeOk, i), PromotingActs(loadOk, storeOk)[i],
                 Promoting(s, loadOk, storeOk, i + 1))
  {
    InvInRange(s);
  }

  ghost function Demoting(s: State, i: nat): State
    requires Inv(s) && s.worker.Idle? && s.queue != [] && Chosen(s) == Some(Demotion)
  {
    InvInRange(s);
    var k, b := s.queue[0], s.clean[0];
    var t := s.(slots := s.slots[b := s.slots[b].(pending := true)], clean := s.clean[1..]);
    if i == 0 then s
    else if i == 1 then s.(worker := Trying(Promotion, k))
    else if i == 2 then s.(worker := Trying(Demotion, k))
    else if i == 3 then t.(worker := Moving(Demotion, k, b, Reserved))
    else if i == 4 then t.(worker := Moving(Demotion, k, b, Moved(true)))
    else if i == 5 then RoundEnd(s, true).(queue := s.queue, worker := Finished(k))
    else RoundEnd(s, true)
  }

  const DEMOTING_ACTS := [Peek, Attempt, Attempt, Trim, Complete, RemoveWork]

  lemma DemotingGoes(s: State, i: nat)
    requires Inv(s) && s.worker.Idle? && s.queue != [] && Chosen(s) == Some(Demotion) && i < 6
    ensures Goes(Demoting(s, i), DEMOTING_ACTS[i], Demoting(s, i + 1))
  {
    if i == 4 {
      DemotingCompletes(s);
    } else {
      DemotingElse(s, i);
    }
  }

  lemma DemotingElse(s: State, i: nat)
    requires Inv(s) && s.worker.Idle? && s.queue != [] && Chosen(s) == Some(Demotion) && i < 6 && i != 4
    ensures Goes(Demoting(s, i), DEMOTING_ACTS[i], Demoting(s, i + 1))
  {
    InvInRange(s);
  }

  lemma DemotingCompletes(s: State)
    requires Inv(s) && s.worker.Idle? && s.queue != [] && Chosen(s) == Some(Demotion)
    ensures Goes(Demoting(s, 4), Complete, Demoting(s, 5))
  {
    InvInRange(s);
    var b, q := s.clean[0], s.slots[s.clean[0]].key;
    assert b in s.clean;
    var t := SetPending(Demoting(s, 4), b, false).(worker := Finished(s.queue[0]));
    assert Holds(t, q, b) && Holds(s, q, b);
    assert Holds(s, q, Find(t, q).value);
  }

  ghost function SavingBack(s: State, loadOk: bool, storeOk: bool, i: nat): State
    requires Inv(s) && s.worker.Idle? && s.queue != [] && Chosen(s) == Some(Writeback)
  {
    InvInRange(s);
    var k, b, last := s.queue[0], s.dirty[0], if loadOk then 6 else 5;
    var t := s.(slots := s.slots[b := s.slots[b].(pending := true, dirty := false)], dirty := s.dirty[1..]);
    if i == 0 then s
    else if i <= 3 then
      s.(worker := Trying(if i == 1 then Promotion else if i == 2 then Demotion else Writeback, k))
    else if i <= last then
      t.(worker := Moving(Writeback, k, b,
                          if i == 4 then Reserved else if i < last then Loaded else Moved(loadOk && storeOk)))
    else if i == last + 1 then RoundEnd(s, loadOk && storeOk).(queue := s.queue, worker := Finished(k))
    else RoundEnd(s, loadOk && storeOk)
  }

  function SavingActs(loadOk: bool, storeOk: bool): seq<Action> {
    [Peek, Attempt, Attempt, Attempt, Load(loadOk)] + (if loadOk then [Store(storeOk)] else []) + [Complete, RemoveWork]
  }

  lemma SavingGoes(s: State, loadOk: bool, storeOk: bool, i: nat)
    requires Inv(s) && s.worker.Idle? && s.queue != [] && Chosen(s) == Some(Writeback)
    requires i < |SavingActs(loadOk, storeOk)|
    ensures Goes(SavingBack(s, loadOk, storeOk, i), SavingActs(loadOk, storeOk)[i],
                 SavingBack(s, loadOk, storeOk, i + 1))
  {
    if i < 4 {
      SavingReserves(s, loadOk, storeOk, i);
    } else {
      SavingMoves(s, loadOk, storeOk, i);
    }
  }

  lemma SavingReserves(s: State, loadOk: bool, storeOk: bool, i: nat)
    requires Inv(s) && s.worker.Idle? && s.queue != [] && Chosen(s) == Some(Writeback) && i < 4
    ensures Goes(SavingBack(s, loadOk, storeOk, i), SavingActs(loadOk, storeOk)[i],
                 SavingBack(s, loadOk, storeOk, i + 1))
  {
    InvInRange(s);
    assert s.dirty[0] in s.dirty;
  }

  lemma SavingMoves(s: State, loadOk: bool, storeOk: bool, i: nat)
    requires Inv(s) && s.worker.Idle? && s.queue != [] && Chosen(s) == Some(Writeback)
    requires 4 <= i < |SavingActs(loadOk, storeOk)|
    ensures Goes(SavingBack(s, loadOk, storeOk, i), SavingActs(loadOk, storeOk)[i],
                 SavingBack(s, loadOk, storeOk, i + 1))
  {
    InvInRange(s);
    assert s.dirty[0] in s.dirty;
  }

  lemma PromotionRound(s: State, loadOk: bool, storeOk: bool)
    requires Inv(s) && s.worker.Idle? && s.queue != [] && s.free != []
    ensures Playable(s, Ws(PromotingActs(loadOk, storeOk)))
    ensures Play(s, Ws(PromotingActs(loadOk, storeOk))) == RoundEnd(s, loadOk && storeOk)
  {
    var acts := PromotingActs(loadOk, storeOk);
    var states := seq(|acts| + 1, i requires 0 <= i => Promoting(s, loadOk, storeOk, i));
    forall i | 0 <= i < |acts| ensures Goes(states[i], acts[i], states[i + 1]) {
      PromotingGoes(s, loadOk, storeOk, i);
    }
    PlayLinked(states, acts, Ws(acts));
  }

  lemma DemotionRound(s: State)
    requires Inv(s) && s.worker.Idle? && s.queue != [] && Chosen(s) == Some(Demotion)
    ensures Playable(s, Ws(DEMOTING_ACTS)) && Play(s, Ws(DEMOTING_ACTS)) == RoundEnd(s, true)
  {
    var states := seq(7, i requires 0 <= i => Demoting(s, i));
    forall i | 0 <= i < 6 ensures Goes(states[i], DEMOTING_ACTS[i], states[i + 1]) {
      DemotingGoes(s, i);
    }
    PlayLinked(states, DEMOTING_ACTS, Ws(DEMOTING_ACTS));
  }

  lemma WritebackRound(s: State, loadOk: bool, storeOk: bool)
    requires Inv(s) && s.worker.Idle? && s.queue != [] && Chosen(s) == Some(Writeback)
    ensures Playable(s, Ws(SavingActs(loadOk, storeOk)))
    ensures Play(s, Ws(SavingActs(loadOk, storeOk))) == RoundEnd(s, loadOk && storeOk)
  {
    var acts := SavingActs(loadOk, storeOk);
    var states := seq(|acts| + 1, i requires 0 <= i => SavingBack(s, loadOk, storeOk, i));
    forall i | 0 <= i < |acts| ensures Goes(states[i], acts[i], states[i + 1]) {
      SavingGoes(s, loadOk, storeOk, i);
    }
    PlayLinked(states, acts, Ws(acts));
  }

  /** Something is free, or much clean, or dirty: a cache between rounds always has work for its worker. */
  lemma AlwaysChosen(s: State)
    requires Inv(s) && s.worker.Idle?
    ensures Chosen(s) != None
  {
    Conservation(s);
  }

  lemma QuietPromotion(loadOk: bool, storeOk: bool, u: Calls)
    requires Quiet(u)
    ensures Round(Some(Promotion), loadOk, storeOk, u) == Ws(PromotingActs(loadOk, storeOk))
  {
    assert Transferring(loadOk, storeOk, u.during) == Ws([Load(loadOk)] + if loadOk then [Store(storeOk)] else []);
  }

  lemma QuietDemotion(loadOk: bool, storeOk: bool, u: Calls)
    requires Quiet(u)
    ensures Round(Some(Demotion), loadOk, storeOk, u) == Ws(DEMOTING_ACTS)
  {
    assert Trimming(u.during) == [W(Trim)];
    assert MakingRoom(Some(Demotion), loadOk, storeOk, u) == [W(Attempt), W(Trim), W(Complete)];
  }

  lemma QuietTransfer(loadOk: bool, storeOk: bool, u: Calls)
    requires Quiet(u)
    ensures Transferring(loadOk, storeOk, u.during) == [W(Load(loadOk))] + if loadOk then [W(Store(storeOk))] else []
  {
  }

  lemma QuietMiddle(done: Option<Kind>, loadOk: bool, storeOk: bool, u: Calls)
    requires Quiet(u) && done == Some(Writeback)
    ensures Middle(done, loadOk, storeOk, u) ==
      [W(Attempt), W(Attempt), W(Attempt)] + Transferring(loadOk, storeOk, u.during) + [W(Complete)]
  {
    var move, room := Transferring(loadOk, storeOk, u.during), MakingRoom(done, loadOk, storeOk, u);
    assert room == [W(Attempt), W(Attempt)] + move + [W(Complete)];
    assert Middle(done, loadOk, storeOk, u) == [W(Attempt)] + room;
  }

  lemma QuietWriteback(loadOk: bool, storeOk: bool, u: Calls)
    requires Quiet(u)
    ensures Round(Some(Writeback), loadOk, storeOk, u) == Ws(SavingActs(loadOk, storeOk))
  {
    QuietTransfer(loadOk, storeOk, u);
    QuietMiddle(Some(Writeback), loadOk, storeOk, u);
  }

  /** A round without users leaves exactly that. */
  lemma QuietRound(s: State, loadOk: bool, storeOk: bool, u: Calls, log: seq<Item>)
    requires Inv(s) && s.worker.Idle? && s.queue != [] && Quiet(u) && log == Round(Chosen(s), loadOk, storeOk, u)
    ensures Playable(s, log)
    ensures Play(s, log) == RoundEnd(s, Chosen(s) == Some(Demotion) || (loadOk && storeOk))
  {
    AlwaysChosen(s);
    match Chosen(s).value {
      case Promotion =>
        QuietPromotion(loadOk, storeOk, u);
        PromotionRound(s, loadOk, storeOk);
      case Demotion =>
        QuietDemotion(loadOk, storeOk, u);
        DemotionRound(s);
      case Writeback =>
        QuietWriteback(loadOk, storeOk, u);
        WritebackRound(s, loadOk, storeOk);
    }
  }
}
