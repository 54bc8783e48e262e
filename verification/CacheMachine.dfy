/** The mapping of a cache as a state machine: one transition for each critical section of
    `mapping_lock` (or of the work queue's own lock), taken in any order by any number of
    user threads and by the one migration worker. */
module CacheMachine {
  import opened Sequences
  import opened Works

  /** What an entry records: its key and its three flag bits. */
  datatype Slot = Slot(key: Key, pending: bool, dirty: bool, alloc: bool)

  datatype Kind = Promotion | Demotion | Writeback

  /** How far the copy of a reserved block has got. */
  datatype Stage = Reserved | Loaded | Moved(ok: bool)

  /** The program counter of the worker, with the work it peeked. */
  datatype Worker =
    | Idle
    | Trying(kind: Kind, key: Key)
    | Moving(kind: Kind, key: Key, block: nat, stage: Stage)
    | Finished(key: Key)

  datatype State = State(
    slots: seq<Slot>,
    free: seq<nat>, clean: seq<nat>, dirty: seq<nat>,
    hashed: set<nat>,
    queue: seq<Key>,
    worker: Worker)

  datatype Action =
    | Lookup(key: Key)
    | LookupInsert(key: Key)
    | Remove(key: Key)
    | SetDirty(block: nat)
    | Peek
    | Attempt
    | Load(ok: bool)
    | Store(ok: bool)
    | Trim
    | Complete
    | RemoveWork

  const NO_KEY := Key([], 0)

  ghost function Init(n: nat): State {
    State(seq(n, _ => Slot(NO_KEY, false, false, false)), seq(n, i => i), [], [], {}, [], Idle)
  }

  // ---------- the hash table, as the set of the blocks it holds ----------

  ghost predicate Holds(s: State, k: Key, b: nat) {
    b in s.hashed && b < |s.slots| && s.slots[b].key == k
  }

  ghost predicate Hashed(s: State, k: Key) {
    exists b: nat :: Holds(s, k, b)
  }

  ghost function Find(s: State, k: Key): (r: Option<nat>)
    ensures r == None <==> !Hashed(s, k)
    ensures r.Some? ==> Holds(s, k, r.value)
  {
    if Hashed(s, k) then var b: nat :| Holds(s, k, b); Some(b) else None
  }

  // ---------- small moves shared by several transitions ----------

  /** A hit on a clean, resident block moves it to the most recently used end. */
  ghost function Touch(s: State, b: nat): State
    requires b < |s.slots|
  {
    if !s.slots[b].pending && !s.slots[b].dirty
    then s.(clean := Without(s.clean, b) + [b])
    else s
  }

  /** Takes the head of the free list for `slot`. */
  ghost function Alloc(s: State, slot: Slot): State
    requires s.free != [] && s.free[0] < |s.slots|
  {
    s.(slots := s.slots[s.free[0] := slot], free := s.free[1..])
  }

  /** Gives block `b` back to the free list; its key and dirty bit stay behind. */
  ghost function Release(s: State, b: nat): State
    requires b < |s.slots|
  {
    s.(slots := s.slots[b := s.slots[b].(alloc := false)], free := s.free + [b])
  }

  ghost function SetPending(s: State, b: nat, pending: bool): State
    requires b < |s.slots|
  {
    s.(slots := s.slots[b := s.slots[b].(pending := pending)])
  }

  /** Queues block `b` on the list its dirty bit chooses. */
  ghost function Enlist(s: State, b: nat, atTail: bool): State
    requires b < |s.slots|
  {
    var put := (l: seq<nat>) => if atTail then l + [b] else [b] + l;
    if s.slots[b].dirty then s.(dirty := put(s.dirty)) else s.(clean := put(s.clean))
  }

  ghost function Unhash(s: State, k: Key): State {
    match Find(s, k)
    case None => s
    case Some(b) => s.(hashed := s.hashed - {b})
  }

  // ---------- user critical sections ----------

  ghost function DoLookup(s: State, k: Key): State {
    match Find(s, k)
    case Some(b) => Touch(s, b)
    case None => s.(queue := Insert(s.queue, k))
  }

  ghost predicate CanInsert(s: State, k: Key) {
    !Hashed(s, k) && !Contains(s.queue, k) && s.free != []
  }

  ghost function DoLookupInsert(s: State, k: Key): State
    requires s.free != [] ==> s.free[0] < |s.slots|
  {
    match Find(s, k)
    case Some(b) => Touch(s, b)
    case None =>
      if Contains(s.queue, k) then s
      else if s.free == [] then s.(queue := Insert(s.queue, k))
      else
        var b := s.free[0];
        Enlist(Alloc(s, Slot(k, false, true, true)).(hashed := s.hashed + {b}), b, true)
  }

  ghost function DoRemove(s: State, k: Key): State {
    match Find(s, k)
    case None => s
    case Some(b) =>
      var t := if s.slots[b].dirty then s.(dirty := Without(s.dirty, b))
               else s.(clean := Without(s.clean, b));
      Release(Unhash(t, k), b)
  }

  ghost function DoSetDirty(s: State, b: nat): State
    requires b < |s.slots|
  {
    var marked := s.(slots := s.slots[b := s.slots[b].(dirty := true)]);
    if !s.slots[b].alloc then s
    else if s.slots[b].pending then marked
    else if s.slots[b].dirty then marked.(dirty := Without(s.dirty, b) + [b])
    else marked.(clean := Without(s.clean, b), dirty := s.dirty + [b])
  }

  // ---------- worker critical sections ----------

  ghost predicate CanReserve(s: State, kind: Kind) {
    match kind
    case Promotion => s.free != []
    case Demotion => |s.clean| > |s.slots| / 2
    case Writeback => s.dirty != [] && s.dirty[0] < |s.slots| && !s.slots[s.dirty[0]].pending
  }

  /** The worker tries promotion, then demotion, then writeback, and gives up after that. */
  function GiveUp(w: Worker): Worker
    requires w.Trying?
  {
    match w.kind
    case Promotion => Trying(Demotion, w.key)
    case Demotion => Trying(Writeback, w.key)
    case Writeback => Finished(w.key)
  }

  ghost predicate InRange(s: State) {
    && (forall i :: 0 <= i < |s.free| ==> s.free[i] < |s.slots|)
    && (forall i :: 0 <= i < |s.clean| ==> s.clean[i] < |s.slots|)
    && (forall i :: 0 <= i < |s.dirty| ==> s.dirty[i] < |s.slots|)
    && (s.worker.Moving? ==> s.worker.block < |s.slots|)
  }

  ghost function DoAttempt(s: State): State
    requires s.worker.Trying? && InRange(s)
  {
    var kind, k := s.worker.kind, s.worker.key;
    if !CanReserve(s, kind) then s.(worker := GiveUp(s.worker))
    else match kind
      case Promotion =>
        var b := s.free[0];
        Alloc(s, Slot(k, true, false, true)).(worker := Moving(kind, k, b, Reserved))
      case Demotion =>
        var b := s.clean[0];
        SetPending(s, b, true).(clean := s.clean[1..], worker := Moving(kind, k, b, Reserved))
      case Writeback =>
        var b := s.dirty[0];
        s.(slots := s.slots[b := s.slots[b].(pending := true, dirty := false)],
           dirty := s.dirty[1..], worker := Moving(kind, k, b, Reserved))
  }

  ghost function DoComplete(s: State): State
    requires s.worker.Moving? && s.worker.stage.Moved? && InRange(s)
  {
    var b, ok := s.worker.block, s.worker.stage.ok;
    var t := SetPending(s, b, false).(worker := Finished(s.worker.key));
    match s.worker.kind
    case Promotion => if ok then Enlist(t.(hashed := t.hashed + {b}), b, true) else Release(t, b)
    case Demotion => if ok then Release(Unhash(t, t.slots[b].key), b) else Enlist(t, b, true)
    case Writeback => Enlist(t, b, ok)
  }

  // ---------- transitions and runs ----------

  /** When a thread can take the action. `Remove` asks for more than the code checks: that a hit
      block is not pending. See `Mapping.RemoveMapping` for what happens otherwise. */
  ghost predicate Enabled(s: State, a: Action) {
    match a
    case Lookup(_) => true
    case LookupInsert(_) => true
    case Remove(k) => Hashed(s, k) ==> !s.slots[Find(s, k).value].pending
    case SetDirty(b) => b < |s.slots|
    case Peek => s.worker.Idle?
    case Attempt => s.worker.Trying?
    case Load(_) => s.worker.Moving? && s.worker.stage.Reserved? && !s.worker.kind.Demotion?
    case Store(_) => s.worker.Moving? && s.worker.stage.Loaded?
    case Trim => s.worker.Moving? && s.worker.stage.Reserved? && s.worker.kind.Demotion?
    case Complete => s.worker.Moving? && s.worker.stage.Moved?
    case RemoveWork => s.worker.Finished?
  }

  ghost function Step(s: State, a: Action): State
    requires InRange(s) && Enabled(s, a)
  {
    match a
    case Lookup(k) => DoLookup(s, k)
    case LookupInsert(k) => DoLookupInsert(s, k)
    case Remove(k) => DoRemove(s, k)
    case SetDirty(b) => DoSetDirty(s, b)
    case Peek => if s.queue == [] then s else s.(worker := Trying(Promotion, s.queue[0]))
    case Attempt => DoAttempt(s)
    case Load(ok) => s.(worker := s.worker.(stage := if ok then Loaded else Moved(false)))
    case Store(ok) => s.(worker := s.worker.(stage := Moved(ok)))
    case Trim => s.(worker := s.worker.(stage := Moved(true)))
    case Complete => DoComplete(s)
    case RemoveWork => s.(queue := if s.queue == [] then [] else s.queue[1..], worker := Idle)
  }
}
