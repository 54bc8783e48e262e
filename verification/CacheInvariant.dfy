/** What every critical section keeps: each block is in exactly one place and its flag bits say
    which, no key is hashed twice, and no queued key is hashed too early. */
module CacheInvariant {
  import opened Sequences
  import opened Works
  import opened CacheMachine

  ghost predicate InFlight(s: State, b: nat) {
    s.worker.Moving? && s.worker.block == b
  }

  ghost predicate Promoting(s: State, b: nat) {
    InFlight(s, b) && s.worker.kind.Promotion?
  }

  /** The flag bits of a block tell its place. */
  ghost predicate Places(s: State) {
    && NoDup(s.free) && NoDup(s.clean) && NoDup(s.dirty)
    && (forall b: nat :: b in s.free <==> b < |s.slots| && !s.slots[b].alloc)
    && (forall b: nat :: b in s.clean <==>
          b < |s.slots| && s.slots[b].alloc && !s.slots[b].pending && !s.slots[b].dirty)
    && (forall b: nat :: b in s.dirty <==>
          b < |s.slots| && s.slots[b].alloc && !s.slots[b].pending && s.slots[b].dirty)
    && (forall b: nat :: b < |s.slots| ==> (s.slots[b].pending <==> InFlight(s, b)))
    && (s.worker.Moving? ==> s.worker.block < |s.slots| && s.slots[s.worker.block].alloc)
  }

  /** No key is in the hash table twice. */
  ghost predicate UniqueKeys(s: State) {
    forall k, b: nat, c: nat :: Holds(s, k, b) && Holds(s, k, c) ==> b == c
  }

  /** Every allocated block is hashed, except one still being promoted. */
  ghost predicate Table(s: State) {
    && (forall b: nat :: b in s.hashed <==> b < |s.slots| && s.slots[b].alloc && !Promoting(s, b))
    && UniqueKeys(s)
  }

  /** The worker's work stays at the front until the worker removes it, and a queued key is not
      hashed, except the front one between completion and removal. */
  ghost predicate Queued(s: State) {
    && NoDup(s.queue) && |s.queue| <= CAPACITY
    && (!s.worker.Idle? ==> s.queue != [] && s.queue[0] == s.worker.key)
    && (forall i :: 0 <= i < |s.queue| && Hashed(s, s.queue[i]) ==> s.worker.Finished? && i == 0)
    && (s.worker.Moving? && s.worker.kind.Promotion? && s.worker.block < |s.slots|
        ==> s.slots[s.worker.block].key == s.worker.key)
    && (s.worker.Moving? && s.worker.stage.Loaded? ==> !s.worker.kind.Demotion?)
  }

  ghost predicate Inv(s: State) {
    |s.slots| > 0 && Places(s) && Table(s) && Queued(s)
  }

  lemma InvInRange(s: State)
    requires Places(s)
    ensures InRange(s)
  {
    assert forall i :: 0 <= i < |s.free| ==> s.free[i] in s.free;
    assert forall i :: 0 <= i < |s.clean| ==> s.clean[i] in s.clean;
    assert forall i :: 0 <= i < |s.dirty| ==> s.dirty[i] in s.dirty;
  }

  lemma InvInit(n: nat)
    requires n > 0
    ensures Inv(Init(n))
  {
    forall b: nat ensures b in Init(n).free <==> b < n {
      if b < n { assert Init(n).free[b] == b; }
    }
  }

  /** The state of a freshly initialised mapping of `n` blocks. */
  ghost function Start(n: nat): (s: State)
    requires n > 0
    ensures Inv(s) && s == Init(n)
  {
    InvInit(n);
    Init(n)
  }

  lemma PopHead(l: seq<nat>)
    requires NoDup(l) && l != []
    ensures NoDup(l[1..]) && forall b: nat :: b in l[1..] <==> b in l && b != l[0]
  {
    forall b: nat ensures b in l[1..] <==> b in l && b != l[0] {
      if b in l && b != l[0] {
        var i :| 0 <= i < |l| && l[i] == b;
        assert l[1..][i - 1] == b;
      }
    }
  }

  // ---------- what unhashing amounts to, given unique keys ----------

  lemma UniqueFrame(s: State, t: State)
    requires UniqueKeys(s) && t.hashed <= s.hashed && |t.slots| == |s.slots|
    requires forall b: nat :: b < |s.slots| ==> t.slots[b].key == s.slots[b].key
    ensures UniqueKeys(t)
  {
    assert forall k, b: nat :: Holds(t, k, b) ==> Holds(s, k, b);
  }

  /** Block `b` unhashed and given back to the free list. */
  ghost function Dropped(s: State, b: nat): State
    requires b < |s.slots|
  {
    Release(s.(hashed := s.hashed - {b}), b)
  }

  /** Block `b` off its list, unhashed and given back. */
  ghost function Evicted(s: State, b: nat): State
    requires b < |s.slots|
  {
    Dropped(if s.slots[b].dirty then s.(dirty := Without(s.dirty, b))
            else s.(clean := Without(s.clean, b)), b)
  }

  lemma RemoveIs(s: State, k: Key, b: nat)
    requires Inv(s) && Find(s, k) == Some(b)
    ensures DoRemove(s, k) == Evicted(s, b)
  {
    var t := if s.slots[b].dirty then s.(dirty := Without(s.dirty, b))
             else s.(clean := Without(s.clean, b));
    UniqueFrame(s, t);
    assert Holds(t, k, b);
  }

  lemma DemotionIs(s: State, b: nat)
    requires Inv(s) && InFlight(s, b) && s.worker.kind.Demotion? && s.worker.stage == Moved(true)
    ensures InRange(s)
    ensures var t := SetPending(s, b, false);
      && UniqueKeys(t)
      && DoComplete(s) == Dropped(t, b).(worker := Finished(s.worker.key))
  {
    InvInRange(s);
    var t := SetPending(s, b, false);
    UniqueFrame(s, t);
    var u := t.(worker := Finished(s.worker.key));
    UniqueFrame(s, u);
    assert Holds(u, u.slots[b].key, b);
  }

  // ---------- each transition keeps the invariant ----------

  lemma TouchKeeps(s: State, b: nat)
    requires Inv(s) && b in s.hashed
    ensures Inv(Touch(s, b))
  {
    WithoutNoDup(s.clean, b);
    var t := Touch(s, b);
    assert forall k, c: nat :: Holds(t, k, c) <==> Holds(s, k, c);
    assert forall k :: Hashed(t, k) <==> Hashed(s, k);
  }

  lemma InsertKeeps(s: State, k: Key)
    requires Inv(s) && !Hashed(s, k)
    ensures Inv(s.(queue := Insert(s.queue, k)))
  {
    var t := s.(queue := Insert(s.queue, k));
    assert forall q, c: nat :: Holds(t, q, c) <==> Holds(s, q, c);
    assert forall q :: Hashed(t, q) <==> Hashed(s, q);
  }

  lemma QueuedIsContained(q: seq<Key>, k: Key)
    requires k in q
    ensures Contains(q, k)
  {
    var i :| 0 <= i < |q| && q[i] == k;
    assert Matches(q[i], k);
  }

  lemma LookupInsertKeeps(s: State, k: Key)
    requires Inv(s) && CanInsert(s, k)
    ensures InRange(s) && Inv(DoLookupInsert(s, k))
  {
    InvInRange(s);
    PopHead(s.free);
    var b, t := s.free[0], DoLookupInsert(s, k);
    assert b in s.free;
    SnocNoDup(s.dirty, b);
    assert forall q, c: nat :: Holds(t, q, c) <==> Holds(s, q, c) || (c == b && q == k);
    if k in s.queue { QueuedIsContained(s.queue, k); }
    assert forall q :: Hashed(t, q) ==> Hashed(s, q) || q == k;
  }

  lemma EvictedPlaces(s: State, b: nat)
    requires Places(s) && b < |s.slots| && s.slots[b].alloc && !s.slots[b].pending
    ensures Places(Evicted(s, b))
  {
    WithoutNoDup(s.clean, b);
    WithoutNoDup(s.dirty, b);
    SnocNoDup(s.free, b);
  }

  lemma EvictedKeeps(s: State, b: nat)
    requires Inv(s) && b in s.hashed && !s.slots[b].pending
    ensures Inv(Evicted(s, b))
  {
    var t := Evicted(s, b);
    EvictedPlaces(s, b);
    UniqueFrame(s, t);
    assert forall q, c: nat :: Holds(t, q, c) ==> Holds(s, q, c);
    assert forall q :: Hashed(t, q) ==> Hashed(s, q);
  }

  lemma RemoveKeeps(s: State, k: Key)
    requires Inv(s) && Enabled(s, Remove(k))
    ensures Inv(DoRemove(s, k))
  {
    if Hashed(s, k) {
      var b := Find(s, k).value;
      RemoveIs(s, k, b);
      EvictedKeeps(s, b);
    }
  }

  lemma MarkingKeeps(s: State, b: nat)
    requires Inv(s) && b < |s.slots| && s.slots[b].pending
    ensures Inv(s.(slots := s.slots[b := s.slots[b].(dirty := true)]))
  {
    var t := s.(slots := s.slots[b := s.slots[b].(dirty := true)]);
    assert forall q, c: nat :: Holds(t, q, c) <==> Holds(s, q, c);
    assert forall q :: Hashed(t, q) <==> Hashed(s, q);
  }

  lemma MarkedPlaces(s: State, b: nat)
    requires Places(s) && b < |s.slots| && s.slots[b].alloc && !s.slots[b].pending
    ensures Places(DoSetDirty(s, b))
  {
    WithoutNoDup(s.clean, b);
    WithoutNoDup(s.dirty, b);
    SnocNoDup(Without(s.dirty, b), b);
  }

  lemma SetDirtyKeeps(s: State, b: nat)
    requires Inv(s) && b < |s.slots|
    ensures Inv(DoSetDirty(s, b))
  {
    if s.slots[b].pending {
      MarkingKeeps(s, b);
    } else if s.slots[b].alloc {
      var t := DoSetDirty(s, b);
      MarkedPlaces(s, b);
      assert forall q, c: nat :: Holds(t, q, c) <==> Holds(s, q, c);
      assert forall q :: Hashed(t, q) <==> Hashed(s, q);
    }
  }

  lemma GivingUpKeeps(s: State)
    requires Inv(s) && s.worker.Trying?
    ensures Inv(s.(worker := GiveUp(s.worker)))
  {
    var t := s.(worker := GiveUp(s.worker));
    assert forall q, c: nat :: Holds(t, q, c) <==> Holds(s, q, c);
    assert forall q :: Hashed(t, q) <==> Hashed(s, q);
  }

  lemma ReservePromotion(s: State)
    requires Inv(s) && s.worker.Trying? && s.worker.kind.Promotion? && s.free != []
    ensures InRange(s) && Inv(DoAttempt(s))
  {
    InvInRange(s);
    var t := DoAttempt(s);
    PopHead(s.free);
    assert s.free[0] in s.free;
    assert forall q, c: nat :: Holds(t, q, c) <==> Holds(s, q, c);
    assert forall q :: Hashed(t, q) <==> Hashed(s, q);
  }

  lemma ReserveOther(s: State)
    requires Inv(s) && s.worker.Trying? && !s.worker.kind.Promotion? && CanReserve(s, s.worker.kind)
    ensures InRange(s) && Inv(DoAttempt(s))
  {
    InvInRange(s);
    var t := DoAttempt(s);
    if s.worker.kind.Demotion? {
      PopHead(s.clean);
      assert s.clean[0] in s.clean;
    } else {
      PopHead(s.dirty);
      assert s.dirty[0] in s.dirty;
    }
    assert forall q, c: nat :: Holds(t, q, c) <==> Holds(s, q, c);
    assert forall q :: Hashed(t, q) <==> Hashed(s, q);
  }

  lemma AttemptKeeps(s: State)
    requires Inv(s) && s.worker.Trying?
    ensures InRange(s) && Inv(DoAttempt(s))
  {
    InvInRange(s);
    if !CanReserve(s, s.worker.kind) {
      GivingUpKeeps(s);
    } else if s.worker.kind.Promotion? {
      ReservePromotion(s);
    } else {
      ReserveOther(s);
    }
  }

  /** The block in flight goes on the list its dirty bit chooses. */
  lemma EnlistedPlaces(s: State, t: State, b: nat, atTail: bool)
    requires Places(s) && InFlight(s, b)
    requires t == Enlist(SetPending(s, b, false).(worker := t.worker), b, atTail).(hashed := t.hashed)
    requires !t.worker.Moving?
    ensures Places(t)
  {
    SnocNoDup(s.clean, b);
    SnocNoDup(s.dirty, b);
  }

  lemma PromotionLands(s: State)
    requires Inv(s) && s.worker.Moving? && s.worker.kind.Promotion? && s.worker.stage == Moved(true)
    ensures InRange(s) && Inv(DoComplete(s))
  {
    InvInRange(s);
    var t, b := DoComplete(s), s.worker.block;
    EnlistedPlaces(s, t, b, true);
    assert forall q, c: nat :: Holds(t, q, c) <==> Holds(s, q, c) || (c == b && q == s.worker.key);
    assert !Hashed(s, s.queue[0]);
    assert forall q :: Hashed(t, q) ==> Hashed(s, q) || q == s.worker.key;
  }

  lemma PromotionFails(s: State)
    requires Inv(s) && s.worker.Moving? && s.worker.kind.Promotion? && s.worker.stage == Moved(false)
    ensures InRange(s) && Inv(DoComplete(s))
  {
    InvInRange(s);
    var t, b := DoComplete(s), s.worker.block;
    SnocNoDup(s.free, b);
    assert forall q, c: nat :: Holds(t, q, c) <==> Holds(s, q, c);
    assert forall q :: Hashed(t, q) <==> Hashed(s, q);
  }

  /** A failed demotion and every writeback put their block back on a list. */
  lemma CompleteUnhashed(s: State)
    requires Inv(s) && s.worker.Moving? && s.worker.stage.Moved?
    requires if s.worker.kind.Demotion? then !s.worker.stage.ok else s.worker.kind.Writeback?
    ensures InRange(s) && Inv(DoComplete(s))
  {
    InvInRange(s);
    var t, b := DoComplete(s), s.worker.block;
    EnlistedPlaces(s, t, b, s.worker.kind.Demotion? || s.worker.stage.ok);
    assert forall q, c: nat :: Holds(t, q, c) <==> Holds(s, q, c);
    assert forall q :: Hashed(t, q) <==> Hashed(s, q);
  }

  lemma DemotionFrees(s: State)
    requires Inv(s) && s.worker.Moving? && s.worker.kind.Demotion? && s.worker.stage == Moved(true)
    ensures InRange(s) && Inv(DoComplete(s))
  {
    InvInRange(s);
    var t, b := DoComplete(s), s.worker.block;
    var u := SetPending(s, b, false).(worker := Finished(s.worker.key));
    SnocNoDup(s.free, b);
    assert forall q, c: nat :: Holds(u, q, c) <==> Holds(s, q, c);
    assert Holds(u, u.slots[b].key, b);
    assert t.hashed == s.hashed - {b};
    assert forall q, c: nat :: Holds(t, q, c) <==> Holds(s, q, c) && c != b;
    assert forall q :: Hashed(t, q) ==> Hashed(s, q);
  }

  lemma CompleteKeeps(s: State)
    requires Inv(s) && s.worker.Moving? && s.worker.stage.Moved?
    ensures InRange(s) && Inv(DoComplete(s))
  {
    if s.worker.kind.Promotion? {
      if s.worker.stage.ok { PromotionLands(s); } else { PromotionFails(s); }
    } else if s.worker.stage.ok && s.worker.kind.Demotion? {
      DemotionFrees(s);
    } else {
      CompleteUnhashed(s);
    }
  }

  lemma RemoveWorkKeeps(s: State)
    requires Inv(s) && s.worker.Finished?
    ensures Inv(s.(queue := s.queue[1..], worker := Idle))
  {
    var t := s.(queue := s.queue[1..], worker := Idle);
    assert forall q, c: nat :: Holds(t, q, c) <==> Holds(s, q, c);
    assert forall q :: Hashed(t, q) <==> Hashed(s, q);
  }

  lemma StageKeeps(s: State, w: Worker)
    requires Inv(s) && s.worker.Moving? && w.Moving?
    requires w == s.worker.(stage := w.stage)
    requires w.stage.Loaded? ==> !w.kind.Demotion?
    ensures Inv(s.(worker := w))
  {
    var t := s.(worker := w);
    assert forall q, c: nat :: Holds(t, q, c) <==> Holds(s, q, c);
    assert forall q :: Hashed(t, q) <==> Hashed(s, q);
  }

  lemma PeekKeeps(s: State)
    requires Inv(s) && s.worker.Idle? && s.queue != []
    ensures Inv(s.(worker := Trying(Promotion, s.queue[0])))
  {
    var t := s.(worker := Trying(Promotion, s.queue[0]));
    assert forall q, c: nat :: Holds(t, q, c) <==> Holds(s, q, c);
    assert forall q :: Hashed(t, q) <==> Hashed(s, q);
  }

  /** Whatever thread moves next, the invariant stays. */
  lemma StepKeeps(s: State, a: Action)
    requires Inv(s) && Enabled(s, a)
    ensures InRange(s) && Inv(Step(s, a))
  {
    InvInRange(s);
    match a
    case Lookup(k) => if Hashed(s, k) { TouchKeeps(s, Find(s, k).value); } else { InsertKeeps(s, k); }
    case LookupInsert(k) =>
      if Hashed(s, k) { TouchKeeps(s, Find(s, k).value); }
      else if CanInsert(s, k) { LookupInsertKeeps(s, k); }
      else { InsertKeeps(s, k); }
    case Remove(k) => RemoveKeeps(s, k);
    case SetDirty(b) => SetDirtyKeeps(s, b);
    case Peek => if s.queue != [] { PeekKeeps(s); }
    case Attempt => AttemptKeeps(s);
    case Load(ok) => StageKeeps(s, Step(s, a).worker);
    case Store(ok) => StageKeeps(s, Step(s, a).worker);
    case Trim => StageKeeps(s, Step(s, a).worker);
    case Complete => CompleteKeeps(s);
    case RemoveWork => RemoveWorkKeeps(s);
  }

  /** One transition from a state that satisfies the invariant. */
  ghost function Next(s: State, a: Action): (t: State)
    requires Inv(s) && Enabled(s, a)
    ensures InRange(s) && t == Step(s, a) && Inv(t) && |t.slots| == |s.slots|
  {
    StepKeeps(s, a);
    Step(s, a)
  }

  lemma FindIs(s: State, k: Key, b: nat)
    requires Inv(s) && Holds(s, k, b)
    ensures Find(s, k) == Some(b)
  {
  }

  lemma AfterLookup(s: State, k: Key)
    requires Inv(s)
    ensures Find(Next(s, Lookup(k)), k) == Find(s, k) && Next(s, Lookup(k)).worker == s.worker
  {
    var t := Next(s, Lookup(k));
    assert forall b: nat :: Holds(t, k, b) <==> Holds(s, k, b);
  }

  lemma AfterInsert(s: State, k: Key)
    requires Inv(s)
    ensures Next(s, LookupInsert(k)).worker == s.worker
    ensures Hashed(s, k) || CanInsert(s, k) || Find(Next(s, LookupInsert(k)), k) == None
  {
    var t := Next(s, LookupInsert(k));
    if !Hashed(s, k) && !CanInsert(s, k) { assert forall b: nat :: Holds(t, k, b) ==> Holds(s, k, b); }
  }
}
