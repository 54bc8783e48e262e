/** The mapping as it lies in shared memory (lib/ssd_cache_mapping.c): one entry array threaded by
    three lists and the hash chains. Every method below is one critical section of `mapping_lock`,
    and does to the memory what the state machine's transition does to its state. */
module Mappings {
  import opened Sequences
  import opened Works
  import opened Hash
  import opened IntrusiveLists
  import opened HashTables
  import opened CacheMachine
  import opened CacheInvariant
  import opened CacheRuns
  import opened Rounds

  ghost function SlotOf(e: Entry): Slot {
    Slot(e.key, e.pending, e.dirty, e.alloc)
  }

  ghost predicate Apart(a: seq<nat>, b: seq<nat>, c: seq<nat>) {
    forall e: nat :: !(e in a && e in b) && !(e in a && e in c) && !(e in b && e in c)
  }

  /** Only the list links differ. */
  ghost predicate LinksOnly(mem: seq<Entry>, mem': seq<Entry>) {
    |mem| == |mem'| && forall i :: 0 <= i < |mem| ==> SameButLinks(mem[i], mem'[i])
  }

  /** Only the hash links differ. */
  ghost predicate ChainsOnly(mem: seq<Entry>, mem': seq<Entry>) {
    |mem| == |mem'| && forall i :: 0 <= i < |mem| ==> SameButHash(mem[i], mem'[i])
  }

  lemma ListFrame(l: IList, mem: seq<Entry>, mem': seq<Entry>)
    requires l.Linked(mem) && |mem'| == |mem|
    requires forall i :: 0 <= i < |mem| && i in l.elts ==>
      mem'[i].next == mem[i].next && mem'[i].prev == mem[i].prev
    ensures l.Linked(mem')
  {
    ThreadsFrame(mem, mem', l.elts);
  }

  lemma LinksKept(mem: seq<Entry>, mem': seq<Entry>)
    requires LinksInRange(mem) && ChainsOnly(mem, mem')
    ensures LinksInRange(mem')
  {
  }

  lemma TableFrame(t: HashTable, mem: seq<Entry>, mem': seq<Entry>)
    requires t.Valid(mem) && |mem'| == |mem|
    requires forall i :: 0 <= i < |mem| && i in t.hashed ==>
      mem'[i].hashNext == mem[i].hashNext && mem'[i].key == mem[i].key
    ensures t.Valid(mem')
  {
    forall h | 0 <= h < |t.chains| ensures Chained(mem', t.buckets[..][h], t.chains[h]) {
      assert forall i :: 0 <= i < |t.chains[h]| ==> t.chains[h][i] in t.chains[h];
      ChainFrame(mem, mem', t.buckets[..][h], t.chains[h]);
    }
    forall h | 0 <= h < |t.chains| ensures Homes(mem', t.chains[h], t.hashed, t.bits, h) {
      HomesFrame(mem, mem', t.chains[h], t.hashed, t.hashed, t.bits, h);
    }
  }

  const ZERO := Entry(0, 0, 0, NO_KEY, false, false, false)

  /** How far a transfer is after one of its phases. */
  function StageAfter(a: Action): Stage
    requires a.Load? || a.Store? || a.Trim?
  {
    if a.Trim? then Moved(true) else if a.Load? && a.ok then Loaded else Moved(a.ok)
  }

  class Mapping {
    const es: array<Entry>
    const free: IList
    const clean: IList
    const dirty: IList
    const table: HashTable
    const wq: WorkQueue
    var nrAllocated: nat
    ghost var st: State  // the abstract state, with the worker's program counter

    /** The lists and the hash table are well formed, and no entry is on two lists. */
    ghost predicate Lists()
      reads this, es, free, clean, dirty, table, table.buckets
    {
      && free != clean && free != dirty && clean != dirty
      && LinksInRange(es[..])
      && free.Linked(es[..]) && clean.Linked(es[..]) && dirty.Linked(es[..])
      && Apart(free.elts, clean.elts, dirty.elts)
      && table.Valid(es[..])
    }

    /** The memory shows the abstract state `s`. */
    ghost predicate Shows(s: State)
      reads this, es, free, clean, dirty, table, wq
    {
      && free.elts == s.free && clean.elts == s.clean && dirty.elts == s.dirty
      && table.hashed == s.hashed && wq.items == s.queue
      && |s.slots| == es.Length
      && (forall i :: 0 <= i < es.Length ==> SlotOf(es[..][i]) == s.slots[i])
      && nrAllocated == es.Length - |s.free|
    }

    /** The memory is a well-formed picture of `st`. */
    ghost predicate Repr()
      reads this, es, free, clean, dirty, table, table.buckets, wq, wq.works
    {
      Lists() && wq.Valid() && Shows(st)
    }

    ghost predicate Valid()
      reads this, es, free, clean, dirty, table, table.buckets, wq, wq.works
    {
      Repr() && Inv(st)
    }

    /** What stays true even when an unlisted entry has been unlinked. */
    ghost predicate Sound()
      reads this, es, free, clean, dirty, table, table.buckets
    {
      && free != clean && free != dirty && clean != dirty && |st.slots| == es.Length
      && LinksInRange(es[..]) && IndexOrNil(free.tail, es.Length) && table.Valid(es[..])
    }

    lemma ListsFrame(mem: seq<Entry>, mem': seq<Entry>)
      requires free.Linked(mem) && clean.Linked(mem) && dirty.Linked(mem) && |mem'| == |mem|
      requires forall i :: 0 <= i < |mem| && (i in free.elts || i in clean.elts || i in dirty.elts) ==>
        mem'[i].next == mem[i].next && mem'[i].prev == mem[i].prev
      ensures free.Linked(mem') && clean.Linked(mem') && dirty.Linked(mem')
    {
      ListFrame(free, mem, mem');
      ListFrame(clean, mem, mem');
      ListFrame(dirty, mem, mem');
    }

    lemma SlotAt(e: nat)
      requires Shows(st) && e < es.Length
      ensures SlotOf(es[e]) == st.slots[e]
    {
      assert es[..][e] == es[e];
    }

    /** Zero-filled memory after `init_mapping`: all entries free, in order, and nothing hashed. */
    constructor (n: nat, bits: nat)
      requires 0 < n < NIL && 1 <= bits <= 32
      ensures Valid() && st == Init(n)
    {
      es := new Entry[n](_ => ZERO);
      free := new IList();
      clean := new IList();
      dirty := new IList();
      table := new HashTable(bits);
      wq := new WorkQueue();
      nrAllocated := 0;
      st := Init(n);
      new;
      Format(n);
    }

    method Format(n: nat)
      requires es.Length == n && 0 < n < NIL && forall i :: 0 <= i < n ==> es[..][i] == ZERO
      requires free != clean && free != dirty && clean != dirty
      requires free.Blank() && clean.Blank() && dirty.Blank() && table.Empty()
      requires 1 <= table.bits <= 32
      requires wq.Valid() && wq.items == [] && nrAllocated == 0 && st == Init(n)
      modifies free, es
      ensures Valid()
    {
      table.EmptyIsValid(es[..]);
      free.EmptyIsLinked(es[..]);
      InitAllocator();
      clean.EmptyIsLinked(es[..]);
      dirty.EmptyIsLinked(es[..]);
      InvInit(n);
    }

    /** `init_mapping`, which rejects a block size or a number of blocks of 0. */
    static method InitMapping(blockSize: nat, cblockNum: nat, bits: nat) returns (rc: nat, m: Mapping?)
      requires cblockNum < 0xFFF_FFFF && 1 <= bits <= 32
      ensures rc == 0 <==> blockSize > 0 && cblockNum > 0
      ensures rc == 0 ==> m != null && m.Valid() && m.st == Init(cblockNum)
      ensures rc != 0 ==> rc == 1 && m == null
    {
      if blockSize == 0 || cblockNum == 0 {
        return 1, null;
      }
      m := new Mapping(cblockNum, bits);
      rc := 0;
    }

    /** Puts every entry on the free list, in order. */
    method InitAllocator()
      requires LinksInRange(es[..]) && free.Linked(es[..]) && table.Valid(es[..]) && free.elts == []
      modifies free, es
      ensures LinksInRange(es[..]) && free.Linked(es[..]) && table.Valid(es[..])
      ensures free.elts == seq(es.Length, i => i)
      ensures forall i :: 0 <= i < es.Length ==> SlotOf(es[..][i]) == SlotOf(old(es[i]))
    {
      for i := 0 to es.Length
        invariant free.elts == seq(i, j => j) && free.Linked(es[..]) && LinksInRange(es[..])
        invariant forall i :: 0 <= i < es.Length ==> SlotOf(es[..][i]) == SlotOf(old(es[i]))
        invariant table.Valid(es[..])
      {
        ghost var mem := es[..];
        free.AddTail(es, i);
        TableFrame(table, mem, es[..]);
      }
    }

    // ---------- the moves that the critical sections are made of ----------

    ghost predicate Unlisted(e: nat)
      reads this, free, clean, dirty
    {
      e !in free.elts && e !in clean.elts && e !in dirty.elts
    }

    method Delist(l: IList, e: nat)
      requires Sound() && (l == clean || l == dirty) && e < es.Length
      modifies l, es
      ensures Sound() && l.elts == Without(old(l.elts), e)
      ensures old(Lists() && e in l.elts) ==> Lists()
      ensures LinksOnly(old(es[..]), es[..])
    {
      ghost var mem := es[..];
      l.Del(es, e);
      if old(Lists() && e in l.elts) {
        ListFrame(free, mem, es[..]);
        if l != clean { ListFrame(clean, mem, es[..]); }
        if l != dirty { ListFrame(dirty, mem, es[..]); }
      }
      TableFrame(table, mem, es[..]);
    }

    /** Takes `e` off the clean or the dirty list. */
    method Unlist(fromDirty: bool, e: nat)
      requires Sound() && e < es.Length
      modifies `st, clean, dirty, es
      ensures Sound() && LinksOnly(old(es[..]), es[..])
      ensures st == if fromDirty then old(st).(dirty := Without(old(st.dirty), e))
                    else old(st).(clean := Without(old(st.clean), e))
      ensures old(Repr() && e in if fromDirty then st.dirty else st.clean) ==> Repr()
    {
      if fromDirty {
        Delist(dirty, e);
        st := st.(dirty := Without(st.dirty, e));
      } else {
        Delist(clean, e);
        st := st.(clean := Without(st.clean, e));
      }
    }

    method Relist(l: IList, e: nat, atTail: bool)
      requires Lists() && (l == clean || l == dirty) && e < es.Length && Unlisted(e)
      modifies l, es
      ensures Lists() && l.elts == if atTail then old(l.elts) + [e] else [e] + old(l.elts)
      ensures LinksOnly(old(es[..]), es[..])
    {
      ghost var mem := es[..];
      if atTail { l.AddTail(es, e); } else { l.AddHead(es, e); }
      ListFrame(free, mem, es[..]);
      if l != clean { ListFrame(clean, mem, es[..]); }
      if l != dirty { ListFrame(dirty, mem, es[..]); }
      TableFrame(table, mem, es[..]);
    }

    /** Puts `e` on the list its dirty bit chooses. */
    method EnlistEntry(e: nat, atTail: bool)
      requires Repr() && e < es.Length && Unlisted(e)
      modifies `st, clean, dirty, es
      ensures Repr() && st == Enlist(old(st), e, atTail)
    {
      SlotAt(e);
      st := Enlist(st, e, atTail);
      if es[e].dirty { Relist(dirty, e, atTail); } else { Relist(clean, e, atTail); }
    }

    /** Rewrites an entry; the links of a listed one and the key and chain of a hashed one stay. */
    method Rewrite(e: nat, x: Entry)
      requires Sound() && e < es.Length
      requires e in table.hashed ==> x.key == es[e].key && x.hashNext == es[e].hashNext
      requires (x.prev == es[e].prev && x.next == es[e].next) || (x.prev == x.next == NIL && Unlisted(e))
      modifies `st, es
      ensures Sound() && es[..] == old(es[..])[e := x]
      ensures st == old(st).(slots := old(st.slots)[e := SlotOf(x)])
      ensures old(Repr()) ==> Repr()
    {
      ghost var mem := es[..];
      es[e] := x;
      st := st.(slots := st.slots[e := SlotOf(x)]);
      assert es[..] == mem[e := x];
      if old(Repr()) {
        ListsFrame(mem, es[..]);
      }
      TableFrame(table, mem, es[..]);
    }

    method SetPending(e: nat, pending: bool)
      requires Repr() && e < es.Length
      modifies `st, es
      ensures Repr() && st == CacheMachine.SetPending(old(st), e, pending)
    {
      SlotAt(e);
      Rewrite(e, es[e].(pending := pending));
    }

    method SetBits(e: nat, pending: bool, dirt: bool)
      requires Repr() && e < es.Length
      modifies `st, es
      ensures Repr()
      ensures st == old(st).(slots := old(st.slots)[e := old(st.slots)[e].(pending := pending, dirty := dirt)])
    {
      SlotAt(e);
      Rewrite(e, es[e].(pending := pending, dirty := dirt));
    }

    method SetDirty(e: nat, bit: bool)
      requires Repr() && e < es.Length
      modifies `st, es
      ensures Repr() && st == old(st).(slots := old(st.slots)[e := old(st.slots)[e].(dirty := bit)])
    {
      SlotAt(e);
      Rewrite(e, es[e].(dirty := bit));
    }

    method HashEntry(e: nat)
      requires Repr() && e < es.Length && e !in st.hashed
      modifies `st, table, table.buckets, es
      ensures Repr() && st == old(st).(hashed := old(st.hashed) + {e})
    {
      ghost var mem := es[..];
      table.Insert(es, e);
      st := st.(hashed := st.hashed + {e});
      ListsFrame(mem, es[..]);
    }

    /** Looks a key up; with unique keys that is the machine's `Find`. */
    method LookUp(key: Key) returns (e: nat)
      requires Valid()
      modifies table, table.buckets, es
      ensures Valid()
      ensures e == NIL <==> !Hashed(st, key)
      ensures e != NIL ==> Find(st, key) == Some(e) && e < es.Length && e in st.hashed
    {
      ghost var mem := es[..];
      e := table.Lookup(es, key);
      ListsFrame(mem, es[..]);
      if e != NIL { assert Holds(st, key, e); }
    }

    /** Unchains an entry `r` with the key of `e`. */
    method Unchain(e: nat) returns (ghost r: nat)
      requires Sound() && e < es.Length && e in table.hashed
      modifies table, table.buckets, es
      ensures Sound() && ChainsOnly(old(es[..]), es[..])
      ensures table.hashed == old(table.hashed) - {r} && r in old(table.hashed) && r < es.Length
      ensures old(es[..])[r].key == old(es[..])[e].key
      ensures old(Lists()) ==> Lists()
    {
      ghost var mem := es[..];
      r := table.Remove(es, e);
      LinksKept(mem, es[..]);
      if old(Lists()) { ListsFrame(mem, es[..]); }
    }

    /** Unhashes `e`, if nobody shares its key with it. */
    method UnhashEntry(e: nat)
      requires Sound() && e < es.Length && e in table.hashed
      modifies `st, table, table.buckets, es
      ensures Sound() && ChainsOnly(old(es[..]), es[..])
      ensures st == old(st).(hashed := old(st.hashed) - {e})
      ensures old(Repr() && UniqueKeys(st)) ==> Repr()
    {
      ghost var mem := es[..];
      ghost var r := Unchain(e);
      if old(Repr() && UniqueKeys(st)) {
        assert Holds(st, mem[e].key, e) && Holds(st, mem[e].key, r);
      }
      st := st.(hashed := st.hashed - {e});
    }

    method PopFree() returns (e: nat)
      requires Repr() && st.free != []
      modifies `st, `nrAllocated, free, es
      ensures Repr() && e == old(st.free)[0] && st == old(st).(free := old(st.free)[1..])
      ensures e < es.Length && Unlisted(e)
    {
      ghost var mem := es[..];
      assert free.elts[0] in free.elts;
      ThreadLength(mem, free.elts);
      PopHead(free.elts);
      e := free.PopHead(es);
      nrAllocated := (nrAllocated + 1) % WORD;
      st := st.(free := st.free[1..]);
      ListFrame(clean, mem, es[..]);
      ListFrame(dirty, mem, es[..]);
      TableFrame(table, mem, es[..]);
    }

    /** Takes the head of the free list and wipes it. */
    method AllocEntry() returns (e: nat)
      requires Repr() && st.free != [] && st.free[0] !in st.hashed && st.free[0] < es.Length
      modifies `st, `nrAllocated, free, es
      ensures Repr() && e == old(st.free)[0] && e < es.Length && Unlisted(e)
      ensures st == Alloc(old(st), Slot(Key([], NIL), false, false, true))
    {
      e := PopFree();
      Rewrite(e, Entry(NIL, NIL, NIL, Key([], NIL), false, false, false));
      Rewrite(e, es[e].(alloc := true));
    }

    /** Takes the head of the free list for `key`. */
    method AllocFor(key: Key, pending: bool, dirt: bool) returns (e: nat)
      requires Repr() && st.free != [] && st.free[0] !in st.hashed && st.free[0] < es.Length
      modifies `st, `nrAllocated, free, es
      ensures Repr() && e == old(st.free)[0] && e < es.Length && Unlisted(e)
      ensures st == Alloc(old(st), Slot(key, pending, dirt, true))
    {
      e := AllocEntry();
      SlotAt(e);
      Rewrite(e, es[e].(pending := pending, dirty := dirt, key := key));
    }

    method AppendFree(e: nat)
      requires Sound() && e < es.Length
      modifies `st, `nrAllocated, free, es
      ensures Sound() && LinksOnly(old(es[..]), es[..])
      ensures st == old(st).(free := old(st.free) + [e])
      ensures old(Repr() && Unlisted(e)) ==> Repr()
    {
      ghost var mem := es[..];
      nrAllocated := (nrAllocated - 1) % WORD;
      free.AddTail(es, e);
      st := st.(free := st.free + [e]);
      TableFrame(table, mem, es[..]);
      if old(Repr() && Unlisted(e)) {
        ThreadLength(es[..], free.elts);
        ListFrame(clean, mem, es[..]);
        ListFrame(dirty, mem, es[..]);
      }
    }

    method FreeEntry(e: nat)
      requires Sound() && e < es.Length
      modifies `st, `nrAllocated, free, es
      ensures Sound() && !es[e].alloc
      ensures old(Repr() && Unlisted(e)) ==> Repr() && st == Release(old(st), e)
    {
      if Repr() { SlotAt(e); }
      Rewrite(e, es[e].(alloc := false));
      ghost var mem := es[..];
      AppendFree(e);
      assert SameButLinks(mem[e], es[..][e]);
    }

    /** The worker goes on to another point of its program. */
    ghost method SetWorker(w: Worker)
      requires Repr()
      modifies `st
      ensures Repr() && st == old(st).(worker := w)
    {
      st := st.(worker := w);
    }

    /** Unhashes an unlisted entry and frees it. */
    method Drop(e: nat)
      requires Sound() && e < es.Length && e in table.hashed
      modifies `st, `nrAllocated, es, free, table, table.buckets
      ensures Sound() && !es[e].alloc
      ensures old(Repr() && UniqueKeys(st) && Unlisted(e)) ==> Repr() && st == Dropped(old(st), e)
    {
      UnhashEntry(e);
      FreeEntry(e);
    }

    /** Takes an entry off its list, unhashes it and frees it. */
    method Evict(e: nat)
      requires Sound() && e < es.Length && e in table.hashed
      modifies `st, `nrAllocated, es, free, clean, dirty, table, table.buckets
      ensures Sound() && !es[e].alloc
      ensures old(Repr() && UniqueKeys(st) && e in if st.slots[e].dirty then st.dirty else st.clean) ==>
        Repr() && st == Evicted(old(st), e)
    {
      ghost var s := st;
      if Repr() { SlotAt(e); }
      Unlist(es[e].dirty, e);
      if old(Repr() && UniqueKeys(st)) { UniqueFrame(s, st); }
      Drop(e);
    }

    /** A phase of the worker's transfer ends; the mapping is not touched. */
    ghost method NextStage(a: Action)
      requires Valid() && Enabled(st, a) && (a.Load? || a.Store? || a.Trim?)
      modifies `st
      ensures Valid() && st == Next(old(st), a)
      ensures old(st.worker.Moving?) && st == old(st).(worker := old(st.worker).(stage := StageAfter(a)))
    {
      ghost var next := Next(st, a);
      SetWorker(next.worker);
    }

    // ---------- the worker's critical sections ----------

    method PromotionFreeToClean(key: Key) returns (ok: bool, cblock: nat)
      requires Valid() && st.worker == Trying(Promotion, key)
      modifies this, free, es
      ensures Valid() && st == Next(old(st), Attempt)
      ensures ok <==> old(st.free) != []
      ensures ok ==> st.worker == Moving(Promotion, key, cblock, Reserved)
    {
      ghost var next := Next(st, Attempt);
      if free.head == NIL {
        st := next;
        return false, 0;
      }
      assert st.free[0] in st.free;
      var e := AllocFor(key, true, false);
      SetWorker(Moving(Promotion, key, e, Reserved));
      assert st == next;
      return true, e;
    }

    method PromotionComplete(cblock: nat, success: bool)
      requires Valid() && st.worker.Moving? && st.worker.kind.Promotion?
      requires st.worker.block == cblock && st.worker.stage == Moved(success)
      modifies this, es, free, clean, dirty, table, table.buckets
      ensures Valid() && st == Next(old(st), Complete)
      ensures st.worker == Finished(old(st.worker.key))
    {
      ghost var next := Next(st, Complete);
      SetPending(cblock, false);
      if success {
        HashEntry(cblock);
        EnlistEntry(cblock, true);
      } else {
        FreeEntry(cblock);
      }
      SetWorker(Finished(st.worker.key));
      assert st == next;
    }

    method DemotionCleanToFree() returns (ok: bool, cblock: nat)
      requires Valid() && st.worker.Trying? && st.worker.kind.Demotion?
      modifies `st, es, clean, dirty
      ensures Valid() && st == Next(old(st), Attempt)
      ensures ok <==> old(|st.clean|) > es.Length / 2
      ensures ok ==> st.worker == Moving(Demotion, old(st.worker.key), cblock, Reserved)
    {
      ghost var next := Next(st, Attempt);
      if clean.nrElts <= es.Length / 2 {
        SetWorker(GiveUp(st.worker));
        return false, 0;
      }
      var e := clean.head;
      assert e == st.clean[0] && e in st.clean;
      WithoutHead(st.clean);
      Unlist(false, e);
      SetPending(e, true);
      SetWorker(Moving(Demotion, st.worker.key, e, Reserved));
      assert st == next;
      return true, e;
    }

    method DemotionComplete(cblock: nat, success: bool)
      requires Valid() && st.worker.Moving? && st.worker.kind.Demotion?
      requires st.worker.block == cblock && st.worker.stage == Moved(success)
      modifies this, es, free, clean, dirty, table, table.buckets
      ensures Valid() && st == Next(old(st), Complete)
      ensures st.worker == Finished(old(st.worker.key))
    {
      ghost var next := Next(st, Complete);
      if success { DemotionIs(st, cblock); }
      SetPending(cblock, false);
      if success {
        Drop(cblock);
      } else {
        EnlistEntry(cblock, true);
      }
      SetWorker(Finished(st.worker.key));
      assert st == next;
    }

    /** Reserves the head of the dirty list. */
    method TakeDirtyHead(e: nat)
      requires Repr() && e < es.Length && st.dirty != [] && st.dirty[0] == e && NoDup(st.dirty)
      modifies `st, es, clean, dirty
      ensures Repr()
      ensures st == old(st).(dirty := old(st.dirty)[1..],
                             slots := old(st.slots)[e := old(st.slots)[e].(pending := true, dirty := false)])
    {
      WithoutHead(st.dirty);
      SetBits(e, true, false);
      Unlist(true, e);
    }

    method WritebackDirtyToClean() returns (ok: bool, cblock: nat)
      requires Valid() && st.worker.Trying? && st.worker.kind.Writeback?
      modifies `st, es, clean, dirty
      ensures Valid() && st == Next(old(st), Attempt)
      ensures ok <==> old(st.dirty) != []
      ensures ok ==> st.worker == Moving(Writeback, old(st.worker.key), cblock, Reserved)
    {
      ghost var next := Next(st, Attempt);
      if dirty.nrElts == 0 {
        SetWorker(GiveUp(st.worker));
        return false, 0;
      }
      var e := dirty.head;
      assert e == st.dirty[0] && e in st.dirty;
      SlotAt(e);
      if es[e].pending {
        assert false;
      }
      TakeDirtyHead(e);
      SetWorker(Moving(Writeback, st.worker.key, e, Reserved));
      assert st == next;
      return true, e;
    }

    method WritebackComplete(cblock: nat, success: bool)
      requires Valid() && st.worker.Moving? && st.worker.kind.Writeback?
      requires st.worker.block == cblock && st.worker.stage == Moved(success)
      modifies `st, es, clean, dirty
      ensures Valid() && st == Next(old(st), Complete)
      ensures st.worker == Finished(old(st.worker.key))
    {
      ghost var next := Next(st, Complete);
      SetPending(cblock, false);
      EnlistEntry(cblock, success);
      SetWorker(Finished(st.worker.key));
      assert st == next;
    }

    /** The worker's attempt of the given kind. */
    method Reserve(kind: Kind, key: Key) returns (ok: bool, cblock: nat)
      requires Valid() && st.worker == Trying(kind, key)
      modifies this, es, free, clean, dirty
      ensures Valid() && st == Next(old(st), Attempt)
      ensures st.worker == if ok then Moving(kind, key, cblock, Reserved) else GiveUp(Trying(kind, key))
    {
      match kind
      case Promotion => ok, cblock := PromotionFreeToClean(key);
      case Demotion => ok, cblock := DemotionCleanToFree();
      case Writeback => ok, cblock := WritebackDirtyToClean();
    }

    /** The completion of a migration of the given kind. */
    method CompleteMove(kind: Kind, key: Key, cblock: nat, success: bool)
      requires Valid() && st.worker == Moving(kind, key, cblock, Moved(success))
      modifies this, es, free, clean, dirty, table, table.buckets
      ensures Valid() && st == Next(old(st), Complete) && st.worker == Finished(key)
    {
      match kind
      case Promotion => PromotionComplete(cblock, success);
      case Demotion => DemotionComplete(cblock, success);
      case Writeback => WritebackComplete(cblock, success);
    }

    // ---------- the users' critical sections ----------

    /** A hit on a clean, resident block moves it to the most recently used end. */
    method TouchEntry(e: nat)
      requires Repr() && e < es.Length && e !in st.free
      requires !st.slots[e].pending && !st.slots[e].dirty ==> e in st.clean && e !in st.dirty
      requires NoDup(st.clean)
      modifies `st, clean, dirty, es
      ensures Repr() && st == Touch(old(st), e)
    {
      SlotAt(e);
      if !es[e].pending && !es[e].dirty {
        WithoutNoDup(st.clean, e);
        Unlist(false, e);
        EnlistEntry(e, true);
      }
    }

    method Enqueue(key: Key)
      requires Repr()
      modifies `st, wq, wq.works
      ensures Repr() && st == old(st).(queue := Insert(old(st.queue), key))
    {
      var _ := wq.InsertWork(key);
      st := st.(queue := Insert(st.queue, key));
    }

    method LookupMapping(name: Name, pageIndex: nat) returns (hit: bool, cblock: nat)
      requires Valid()
      modifies this, es, clean, dirty, table, table.buckets, wq, wq.works
      ensures Valid() && st == Next(old(st), Lookup(Key(name, pageIndex / 8)))
      ensures hit <==> Hashed(old(st), Key(name, pageIndex / 8))
      ensures hit ==> Find(old(st), Key(name, pageIndex / 8)) == Some(cblock)
    {
      var key := Key(name, pageIndex / 8);
      ghost var next := Next(st, Lookup(key));
      var e := LookUp(key);
      if e != NIL {
        TouchEntry(e);
        cblock := e;
      } else {
        Enqueue(key);
        cblock := 0;
      }
      hit := e != NIL;
      assert st == next;
    }

    method LookupMappingWithInsert(name: Name, pageIndex: nat) returns (hit: bool, cblock: nat)
      requires Valid()
      modifies this, es, free, clean, dirty, table, table.buckets, wq, wq.works
      ensures Valid() && st == Next(old(st), LookupInsert(Key(name, pageIndex / 8)))
      ensures hit <==> var k := Key(name, pageIndex / 8); Hashed(old(st), k) || CanInsert(old(st), k)
      ensures hit <==>
        Hashed(old(st), Key(name, pageIndex / 8)) ||
        (old(st.free) != [] &&
          !exists i :: 0 <= i < |old(st.queue)| && old(st.queue)[i].page == pageIndex / 8 &&
            |old(st.queue)[i].name| <= |name| &&
            forall j :: 0 <= j < |old(st.queue)[i].name| ==> old(st.queue)[i].name[j] == name[j])
      ensures hit ==> Holds(st, Key(name, pageIndex / 8), cblock)
    {
      var key := Key(name, pageIndex / 8);
      ghost var next := Next(st, LookupInsert(key));
      ContainsExactly(st.queue, key);
      var e := LookUp(key);
      if e != NIL {
        TouchEntry(e);
        assert st == next;
        return true, e;
      }
      hit, cblock := InsertOrQueue(key);
      assert st == next;
    }

    /** A key that is not hashed: inserted if it is not queued and something is free, else queued. */
    method InsertOrQueue(key: Key) returns (inserted: bool, cblock: nat)
      requires Valid() && !Hashed(st, key)
      modifies this, es, free, clean, dirty, table, table.buckets, wq, wq.works
      ensures Repr() && old(InRange(st)) && st == DoLookupInsert(old(st), key)
      ensures inserted <==> CanInsert(old(st), key)
      ensures inserted ==> Holds(st, key, cblock)
    {
      InvInRange(st);
      var queued := wq.ContainsWork(key);
      if queued {
        return false, 0;
      }
      if free.head == NIL {
        Enqueue(key);
        return false, 0;
      }
      assert st.free[0] in st.free;
      cblock := InsertEntry(key);
      inserted := true;
    }

    /** Allocates an entry for `key`, hashes it and lists it as dirty. */
    method InsertEntry(key: Key) returns (e: nat)
      requires Repr() && st.free != [] && st.free[0] !in st.hashed && st.free[0] < es.Length
      modifies this, es, free, clean, dirty, table, table.buckets
      ensures Repr() && e == old(st.free)[0] && Holds(st, key, e)
      ensures st == Enlist(Alloc(old(st), Slot(key, false, true, true)).(hashed := old(st.hashed) + {e}),
                           e, true)
    {
      e := AllocFor(key, false, true);
      HashEntry(e);
      EnlistEntry(e, true);
    }

    method SetDirtyAfterWrite(cblock: nat)
      requires Valid() && cblock < es.Length
      modifies `st, es, clean, dirty
      ensures Valid() && st == Next(old(st), CacheMachine.SetDirty(cblock))
      ensures !old(es[cblock].alloc) ==> st == old(st)
    {
      ghost var next := Next(st, CacheMachine.SetDirty(cblock));
      SlotAt(cblock);
      if !es[cblock].alloc {
        return;
      }
      if es[cblock].pending {
        SetDirty(cblock, true);
      } else {
        Unlist(es[cblock].dirty, cblock);
        SetDirty(cblock, true);
        EnlistEntry(cblock, true);
      }
      assert st == next;
    }

    /** Discards a key. If its block is in flight, the memory afterwards shows no state that
        satisfies the invariant; in every other case it shows the machine's next state. */
    method RemoveMapping(name: Name, pageIndex: nat) returns (hit: bool)
      requires Valid()
      modifies this, es, free, clean, dirty, table, table.buckets
      ensures hit <==> Hashed(old(st), Key(name, pageIndex / 8))
      ensures Enabled(old(st), Remove(Key(name, pageIndex / 8))) ==>
        Valid() && st == Next(old(st), Remove(Key(name, pageIndex / 8)))
      ensures !Enabled(old(st), Remove(Key(name, pageIndex / 8))) ==>
        forall s: State :: s.worker == old(st.worker) ==> !(Shows(s) && Inv(s))
      ensures !Enabled(old(st), Remove(Key(name, pageIndex / 8))) ==>
        old(st).worker.Moving? && old(st).worker.block < es.Length && !es[old(st).worker.block].alloc
    {
      var key := Key(name, pageIndex / 8);
      var e := LookUp(key);
      if e == NIL {
        return false;
      }
      ghost var s := st;
      Evict(e);
      if Enabled(s, Remove(key)) {
        RemoveIs(s, key, e);
        assert st == Next(s, Remove(key));
      }
      return true;
    }

    // ---------- one round of the worker, with users in between ----------

    /** Whether the block of a key is in flight, so that a discard must not hit it. */
    method InFlightKey(key: Key) returns (busy: bool)
      requires Valid()
      modifies table, table.buckets, es
      ensures Valid() && st == old(st)
      ensures busy <==> !Enabled(st, Remove(key))
    {
      var e := LookUp(key);
      if e == NIL {
        return false;
      }
      SlotAt(e);
      return es[e].pending;
    }

    /** A user's critical section; a discard that would hit the block in flight is not run. */
    method RunUser(c: UserCall)
      requires Valid()
      modifies this, es, free, clean, dirty, table, table.buckets, wq, wq.works
      ensures Valid() && st == DoItem(old(st), U(c))
    {
      match c
      case CallLookup(name, page) =>
        var _, _ := LookupMapping(name, page);
      case CallInsert(name, page) =>
        var _, _ := LookupMappingWithInsert(name, page);
      case CallSetDirty(block) =>
        if block < es.Length { SetDirtyAfterWrite(block); }
      case CallRemove(name, page) =>
        var busy := InFlightKey(Key(name, page / 8));
        if !busy { var _ := RemoveMapping(name, page); }
    }

    /** Any number of users' critical sections, in order; they leave the worker where it is. */
    method RunUsers(calls: seq<UserCall>)
      requires Valid()
      modifies this, es, free, clean, dirty, table, table.buckets, wq, wq.works
      ensures Valid() && Trace(old(st), Us(calls), st)
      ensures st.worker == old(st.worker) && (calls == [] ==> st == old(st))
    {
      ghost var s := st;
      for i := 0 to |calls|
        invariant Valid() && Trace(s, Us(calls[..i]), st)
        invariant st.worker == s.worker && (i == 0 ==> st == s)
      {
        ghost var before := st;
        RunUser(calls[i]);
        UserKeepsWorker(before, calls[i]);
        UserTraced(s, Us(calls[..i]), before, calls[i], st);
        UsSnoc(calls, i);
      }
      assert calls[..|calls|] == calls;
    }

    /** The transfer of a reserved block, which fails on either side or not at all. */
    method Transfer(loadOk: bool, storeOk: bool, users: seq<seq<UserCall>>) returns (success: bool)
      requires Valid() && |users| == 3
      requires st.worker.Moving? && st.worker.stage.Reserved? && !st.worker.kind.Demotion?
      modifies this, es, free, clean, dirty, table, table.buckets, wq, wq.works
      ensures Valid() && Trace(old(st), Transferring(loadOk, storeOk, users), st)
      ensures st.worker == old(st.worker).(stage := Moved(success)) && success == (loadOk && storeOk)
    {
      ghost var s0 := st;
      RunUsers(users[0]);
      ghost var s1 := st;
      NextStage(Load(loadOk));
      ghost var s2 := st;
      RunUsers(users[1]);
      ghost var s3 := st;
      if loadOk {
        NextStage(Store(storeOk));
      }
      ghost var s4 := st;
      RunUsers(users[2]);
      TransferTraced(s0, s1, s2, s3, s4, st, loadOk, storeOk, users);
      success := loadOk && storeOk;
    }

    /** The transfer of a demotion, which only submits a trim. */
    method TrimOnly(users: seq<seq<UserCall>>)
      requires Valid() && |users| == 3
      requires st.worker.Moving? && st.worker.stage.Reserved? && st.worker.kind.Demotion?
      modifies this, es, free, clean, dirty, table, table.buckets, wq, wq.works
      ensures Valid() && Trace(old(st), Trimming(users), st)
      ensures st.worker == old(st.worker).(stage := Moved(true))
    {
      ghost var s0 := st;
      RunUsers(users[0]);
      ghost var s1 := st;
      NextStage(Trim);
      ghost var s2 := st;
      RunUsers(users[1]);
      StepTraced(s0, Us(users[0]), s1, Trim, s2);
      Compose(s0, Us(users[0]) + [W(Trim)], s2, Us(users[1]), st);
    }

    // A reserved block is moved and the migration completed.

    method Promote(cblock: nat, loadOk: bool, storeOk: bool, users: seq<seq<UserCall>>)
      requires Valid() && |users| == 3
      requires st.worker.Moving? && st.worker == Moving(Promotion, st.worker.key, cblock, Reserved)
      modifies this, es, free, clean, dirty, table, table.buckets, wq, wq.works
      ensures Valid() && Trace(old(st), Transferring(loadOk, storeOk, users) + [W(Complete)], st)
      ensures st.worker == Finished(old(st.worker.key))
    {
      var success := Transfer(loadOk, storeOk, users);
      ghost var before := st;
      PromotionComplete(cblock, success);
      StepTraced(old(st), Transferring(loadOk, storeOk, users), before, Complete, st);
    }

    method Demote(cblock: nat, users: seq<seq<UserCall>>)
      requires Valid() && |users| == 3
      requires st.worker.Moving? && st.worker == Moving(Demotion, st.worker.key, cblock, Reserved)
      modifies this, es, free, clean, dirty, table, table.buckets, wq, wq.works
      ensures Valid() && Trace(old(st), Trimming(users) + [W(Complete)], st)
      ensures st.worker == Finished(old(st.worker.key))
    {
      TrimOnly(users);
      ghost var before := st;
      DemotionComplete(cblock, true);
      StepTraced(old(st), Trimming(users), before, Complete, st);
    }

    method WriteBack(cblock: nat, loadOk: bool, storeOk: bool, users: seq<seq<UserCall>>)
      requires Valid() && |users| == 3
      requires st.worker.Moving? && st.worker == Moving(Writeback, st.worker.key, cblock, Reserved)
      modifies this, es, free, clean, dirty, table, table.buckets, wq, wq.works
      ensures Valid() && Trace(old(st), Transferring(loadOk, storeOk, users) + [W(Complete)], st)
      ensures st.worker == Finished(old(st.worker.key))
    {
      var success := Transfer(loadOk, storeOk, users);
      ghost var before := st;
      WritebackComplete(cblock, success);
      StepTraced(old(st), Transferring(loadOk, storeOk, users), before, Complete, st);
    }

    // The three attempts, each with what follows if it succeeds.

    method TryPromotion(key: Key, loadOk: bool, storeOk: bool, users: seq<seq<UserCall>>) returns (took: bool)
      requires Valid() && |users| == 3 && st.worker == Trying(Promotion, key)
      modifies this, es, free, clean, dirty, table, table.buckets, wq, wq.works
      ensures Valid() && (took <==> old(st.free) != [])
      ensures Trace(old(st), Attempting(took, Transferring(loadOk, storeOk, users)), st)
      ensures if took then st.worker == Finished(key) else st == old(st).(worker := Trying(Demotion, key))
    {
      ghost var s := st;
      var cblock;
      took, cblock := PromotionFreeToClean(key);
      ghost var reserved := st;
      if took {
        Promote(cblock, loadOk, storeOk, users);
      }
      AttemptTraced(s, reserved, took, Transferring(loadOk, storeOk, users), st);
    }

    method TryDemotion(key: Key, users: seq<seq<UserCall>>) returns (took: bool)
      requires Valid() && |users| == 3 && st.worker == Trying(Demotion, key)
      modifies this, es, free, clean, dirty, table, table.buckets, wq, wq.works
      ensures Valid() && (took <==> old(|st.clean|) > old(|st.slots|) / 2)
      ensures Trace(old(st), Attempting(took, Trimming(users)), st)
      ensures if took then st.worker == Finished(key) else st == old(st).(worker := Trying(Writeback, key))
    {
      ghost var s := st;
      var cblock;
      took, cblock := DemotionCleanToFree();
      ghost var reserved := st;
      if took {
        Demote(cblock, users);
      }
      AttemptTraced(s, reserved, took, Trimming(users), st);
    }

    method TryWriteback(key: Key, loadOk: bool, storeOk: bool, users: seq<seq<UserCall>>) returns (took: bool)
      requires Valid() && |users| == 3 && st.worker == Trying(Writeback, key)
      modifies this, es, free, clean, dirty, table, table.buckets, wq, wq.works
      ensures Valid() && (took <==> old(st.dirty) != [])
      ensures Trace(old(st), Attempting(took, Transferring(loadOk, storeOk, users)), st)
      ensures st.worker == Finished(key)
    {
      ghost var s := st;
      var cblock;
      took, cblock := WritebackDirtyToClean();
      ghost var reserved := st;
      if took {
        WriteBack(cblock, loadOk, storeOk, users);
      }
      AttemptTraced(s, reserved, took, Transferring(loadOk, storeOk, users), st);
    }

    method PeekWork() returns (key: Option<Key>)
      requires Valid() && st.worker.Idle?
      modifies `st
      ensures Valid() && st == Next(old(st), Peek)
      ensures key == if st.queue == [] then None else Some(st.queue[0])
      ensures st.worker == if key.Some? then Trying(Promotion, key.value) else Idle
    {
      ghost var next := Next(st, Peek);
      key := wq.PeakWork();
      st := next;
    }

    method RemoveDone()
      requires Valid() && st.worker.Finished?
      modifies `st, wq
      ensures Valid() && st == Next(old(st), RemoveWork) && st.worker.Idle?
    {
      ghost var next := Next(st, RemoveWork);
      var _ := wq.RemoveWork();
      st := next;
    }

    /** The third attempt, after the users' calls before it. */
    method Save(key: Key, loadOk: bool, storeOk: bool, u: Calls) returns (took: bool)
      requires Valid() && WellFormed(u) && st.worker == Trying(Writeback, key)
      modifies this, es, free, clean, dirty, table, table.buckets, wq, wq.works
      ensures Valid() && st.worker == Finished(key) && (u.between[2] == [] ==> (took <==> old(st.dirty) != []))
      ensures Trace(old(st), Saving(took, loadOk, storeOk, u), st)
    {
      ghost var s0 := st;
      RunUsers(u.between[2]);
      ghost var s1 := st;
      took := TryWriteback(key, loadOk, storeOk, u.during);
      Compose(s0, Us(u.between[2]), s1, Attempting(took, Transferring(loadOk, storeOk, u.during)), st);
    }

    /** Demotion if enough is clean, else writeback. */
    method MakeRoom(key: Key, loadOk: bool, storeOk: bool, u: Calls) returns (done: Option<Kind>)
      requires Valid() && WellFormed(u) && st.worker == Trying(Demotion, key)
      modifies this, es, free, clean, dirty, table, table.buckets, wq, wq.works
      ensures Valid() && st.worker == Finished(key) && done != Some(Promotion)
      ensures Trace(old(st), MakingRoom(done, loadOk, storeOk, u), st)
      ensures u.between[2] == [] ==> done == ChosenRoom(old(st))
    {
      ghost var s0 := st;
      var took := TryDemotion(key, u.during);
      if took {
        return Some(Demotion);
      }
      ghost var s1 := st;
      took := Save(key, loadOk, storeOk, u);
      Compose(s0, Attempting(false, Trimming(u.during)), s1, Saving(took, loadOk, storeOk, u), st);
      done := if took then Some(Writeback) else None;
    }

    /** Promotion if something is free, else demotion if enough is clean, else writeback. */
    method Serve(key: Key, loadOk: bool, storeOk: bool, u: Calls) returns (done: Option<Kind>)
      requires Valid() && WellFormed(u) && st.worker == Trying(Promotion, key)
      modifies this, es, free, clean, dirty, table, table.buckets, wq, wq.works
      ensures Valid() && st.worker == Finished(key)
      ensures Trace(old(st), Serving(done, loadOk, storeOk, u), st)
      ensures u.between[1] == u.between[2] == [] ==> done == Chosen(old(st))
    {
      ghost var s0 := st;
      var took := TryPromotion(key, loadOk, storeOk, u.during);
      if took {
        return Some(Promotion);
      }
      ghost var s1 := st;
      RunUsers(u.between[1]);
      ghost var s2 := st;
      done := MakeRoom(key, loadOk, storeOk, u);
      Compose3(s0, Attempting(false, Transferring(loadOk, storeOk, u.during)), s1, Us(u.between[1]), s2,
               MakingRoom(done, loadOk, storeOk, u), st);
    }

    /** From the first attempt to the removal. */
    method WorkOn(key: Key, loadOk: bool, storeOk: bool, u: Calls) returns (done: Option<Kind>)
      requires Valid() && WellFormed(u) && st.worker == Trying(Promotion, key)
      modifies this, es, free, clean, dirty, table, table.buckets, wq, wq.works
      ensures Valid() && st.worker == Finished(key)
      ensures Trace(old(st), Middle(done, loadOk, storeOk, u), st)
      ensures Quiet(u) ==> done == Chosen(old(st))
    {
      ghost var s0 := st;
      RunUsers(u.between[0]);
      ghost var s1 := st;
      done := Serve(key, loadOk, storeOk, u);
      ghost var s2 := st;
      RunUsers(u.between[3]);
      Compose3(s0, Us(u.between[0]), s1, Serving(done, loadOk, storeOk, u), s2, Us(u.between[3]), st);
    }

    /** One call of `do_migration_work`, with the users' critical sections `u` between its attempts and
        during its transfer. What happens, and in which order, is the schedule `Round` of the migration
        `done`: every call in its place, and the transfers with the given outcomes. Without users the
        round leaves `RoundEnd`. The work is served by exactly one completed migration, or given up, and
        then removed; without discards it is never given up. */
    method DoMigrationWork(loadOk: bool, storeOk: bool, u: Calls)
      returns (worked: bool, done: Option<Kind>, ghost log: seq<Item>)
      requires Valid() && st.worker.Idle? && WellFormed(u)
      modifies this, es, free, clean, dirty, table, table.buckets, wq, wq.works
      ensures Valid() && Trace(old(st), log, st) && st.worker.Idle?
      ensures worked <==> old(st.queue) != []
      ensures worked ==> log == Round(done, loadOk, storeOk, u)
      ensures worked && Quiet(u) ==>
        done == Chosen(old(st)) && st == RoundEnd(old(st), done == Some(Demotion) || (loadOk && storeOk))
      ensures worked ==> Legal(old(st), RunOf(old(st), log)) && Count(RunOf(old(st), log), RemoveWork) == 1
      ensures worked ==> Count(RunOf(old(st), log), Complete) + GivenUp(old(st), RunOf(old(st), log)) == 1
      ensures worked && NoDiscard(RunOf(old(st), log)) ==> Count(RunOf(old(st), log), Complete) == 1
      ensures !worked ==> st == old(st)
    {
      ghost var s := st;
      var key := PeekWork();
      log := [W(Peek)];
      StepTraced(s, [], s, Peek, st);
      if key == None {
        return false, None, log;
      }
      ghost var s1 := st;
      done := WorkOn(key.value, loadOk, storeOk, u);
      ghost var s2 := st;
      RemoveDone();
      RoundTraced(s, s1, s2, st, done, loadOk, storeOk, u);
      MiddleKeepsWork(done, loadOk, storeOk, u);
      log := Round(done, loadOk, storeOk, u);
      ServedOnce(s, [W(Peek)] + Middle(done, loadOk, storeOk, u), s2, log);
      worked := true;
      if Quiet(u) { QuietRound(s, loadOk, storeOk, u, log); }
    }
  }

  // ---------- the schedule that a round traces ----------

  ghost predicate Trace(s: State, log: seq<Item>, t: State) {
    Inv(s) && Playable(s, log) && t == Play(s, log)
  }

  lemma StepTraced(s: State, log: seq<Item>, u: State, a: Action, t: State)
    requires Trace(s, log, u) && Inv(u) && Enabled(u, a) && t == Next(u, a)
    ensures Trace(s, log + [W(a)], t)
    ensures log == [] ==> Trace(s, [W(a)], t)
  {
    PlaySnoc(s, log, W(a));
    assert [] + [W(a)] == [W(a)];
  }

  lemma UserTraced(s: State, log: seq<Item>, u: State, c: UserCall, t: State)
    requires Trace(s, log, u) && Inv(u) && t == DoItem(u, U(c))
    ensures Trace(s, log + [U(c)], t)
  {
    PlaySnoc(s, log, U(c));
  }

  lemma UsSnoc(calls: seq<UserCall>, i: nat)
    requires i < |calls|
    ensures Us(calls[..i + 1]) == Us(calls[..i]) + [U(calls[i])]
  {
  }

  /** One schedule after the other. */
  lemma Compose(s: State, a: seq<Item>, t: State, b: seq<Item>, u: State)
    requires Trace(s, a, t) && Trace(t, b, u)
    ensures Trace(s, a + b, u)
  {
    Follow(s, a, t, b, a + b);
  }

  lemma {:induction false} Follow(s: State, a: seq<Item>, t: State, b: seq<Item>, all: seq<Item>)
    requires Trace(s, a, t) && Inv(t) && Playable(t, b) && all == a + b
    ensures Playable(s, all) && Play(s, all) == Play(t, b)
  {
    if b == [] {
      assert all == a;
    } else {
      var pre, x := all[..|all| - 1], b[|b| - 1];
      Follow(s, a, t, b[..|b| - 1], pre);
      assert all == pre + [x];
      PlaySnoc(s, pre, x);
    }
  }

  lemma Compose3(s: State, a: seq<Item>, t: State, b: seq<Item>, u: State, c: seq<Item>, v: State)
    requires Trace(s, a, t) && Trace(t, b, u) && Trace(u, c, v)
    ensures Trace(s, a + b + c, v)
  {
    Compose(s, a, t, b, u);
    Compose(s, a + b, u, c, v);
  }

  lemma TransferTraced(s0: State, s1: State, s2: State, s3: State, s4: State, s5: State,
                       loadOk: bool, storeOk: bool, during: seq<seq<UserCall>>)
    requires |during| == 3 && Trace(s0, Us(during[0]), s1)
    requires Inv(s1) && Enabled(s1, Load(loadOk)) && s2 == Next(s1, Load(loadOk)) && Trace(s2, Us(during[1]), s3)
    requires if loadOk then Inv(s3) && Enabled(s3, Store(storeOk)) && s4 == Next(s3, Store(storeOk)) else s4 == s3
    requires Trace(s4, Us(during[2]), s5)
    ensures Trace(s0, Transferring(loadOk, storeOk, during), s5)
  {
    var a := Us(during[0]);
    StepTraced(s0, a, s1, Load(loadOk), s2);
    var b := a + [W(Load(loadOk))];
    Compose(s0, b, s2, Us(during[1]), s3);
    var c := b + Us(during[1]);
    var d := c + if loadOk then [W(Store(storeOk))] else [];
    if loadOk {
      StepTraced(s0, c, s3, Store(storeOk), s4);
    } else {
      assert d == c;
    }
    Compose(s0, d, s4, Us(during[2]), s5);
  }

  lemma AttemptTraced(s: State, reserved: State, took: bool, move: seq<Item>, t: State)
    requires Inv(s) && s.worker.Trying? && reserved == Next(s, Attempt)
    requires if took then Trace(reserved, move + [W(Complete)], t) else t == reserved && !reserved.worker.Moving?
    ensures Trace(s, Attempting(took, move), t)
    ensures !took ==> t == s.(worker := GiveUp(s.worker))
  {
    StepTraced(s, [], s, Attempt, reserved);
    if took {
      Compose(s, [W(Attempt)], reserved, move + [W(Complete)], t);
    } else {
      assert Attempting(took, move) == [W(Attempt)];
    }
  }

  lemma RoundTraced(s0: State, s1: State, s2: State, s3: State,
                    done: Option<Kind>, loadOk: bool, storeOk: bool, u: Calls)
    requires WellFormed(u) && Inv(s0) && s0.worker.Idle? && s0.queue != [] && s1 == Next(s0, Peek)
    requires Trace(s1, Middle(done, loadOk, storeOk, u), s2)
    requires Inv(s2) && Enabled(s2, RemoveWork) && s3 == Next(s2, RemoveWork)
    ensures Trace(s0, [W(Peek)] + Middle(done, loadOk, storeOk, u), s2)
    ensures Trace(s0, Round(done, loadOk, storeOk, u), s3) && Chosen(s1) == Chosen(s0)
  {
    StepTraced(s0, [], s0, Peek, s1);
    Compose(s0, [W(Peek)], s1, Middle(done, loadOk, storeOk, u), s2);
    StepTraced(s0, [W(Peek)] + Middle(done, loadOk, storeOk, u), s2, RemoveWork, s3);
  }

  /** A round that ends by removing its only work has completed one migration or given the work up. */
  lemma ServedOnce(s: State, log: seq<Item>, u: State, whole: seq<Item>)
    requires Trace(s, log, u) && s.worker.Idle? && !Removes(log) && Inv(u) && Enabled(u, RemoveWork)
    requires whole == log + [W(RemoveWork)] && Playable(s, whole)
    ensures var all := RunOf(s, whole);
      && Legal(s, all) && Count(all, RemoveWork) == 1 && Count(all, Complete) + GivenUp(s, all) == 1
      && (NoDiscard(all) ==> Count(all, Complete) == 1)
  {
    RunOfIsRun(s, log);
    NotInRun(s, log, RemoveWork);
    assert whole[..|whole| - 1] == log;
    RemovedOnce(s, RunOf(s, log));
  }

  lemma RemovedOnce(s: State, acts: seq<Action>)
    requires Inv(s) && s.worker.Idle? && RemoveWork !in acts && Legal(s, acts)
    requires Enabled(Exec(s, acts), RemoveWork)
    ensures var all := acts + [RemoveWork];
      && Legal(s, all) && Count(all, RemoveWork) == 1 && Count(all, Complete) + GivenUp(s, all) == 1
      && (NoDiscard(all) ==> Count(all, Complete) == 1)
  {
    var all := acts + [RemoveWork];
    ExecSnoc(s, acts, RemoveWork);
    OneOutcomePerWork(s, all);
    if NoDiscard(all) { HungryAlways(s, all); }
    OnlyLast(acts, RemoveWork);
  }
}
