/** Serving requests from the mapping and the two devices (lib/ssd_cache_target.c), and the copies of
    the worker (`mg_start` of lib/ssd_cache_mapping.c). */
module Targets {
  import opened Sequences
  import opened Works
  import opened CacheMachine
  import opened CacheInvariant
  import opened Mappings
  import opened Geometry
  import opened Hash
  import opened ScatterGather
  import opened Pios
  import opened FlatStorage
  import opened Coherence

  class Target {
    const blockSize: nat
    ghost const used: iset<Key>  // the file blocks that users ask for
    const mapping: Mapping
    var ssd: map<nat, Page>
    var origin: map<(Name, nat), Page>
    var dmaBuf: seq<Page>
    var trims: nat
    var pc: Worker  // where the worker is in its program

    ghost predicate Valid()
      reads this, mapping, mapping.es, mapping.free, mapping.clean, mapping.dirty,
            mapping.table, mapping.table.buckets, mapping.wq, mapping.wq.works
    {
      blockSize > 0 && mapping.Valid() && pc == mapping.st.worker
    }

    ghost function AsDisk(): Disk
      reads this, mapping
    {
      Disk(mapping.st, ssd, origin, dmaBuf, trims)
    }

    constructor (blockSize: nat, ghost used: iset<Key>, mapping: Mapping, ssd: map<nat, Page>,
                 origin: map<(Name, nat), Page>)
      requires blockSize > 0 && mapping.Valid() && mapping.st.worker.Idle?
      ensures Valid() && this.blockSize == blockSize && this.used == used && this.mapping == mapping
      ensures AsDisk() == Disk(mapping.st, ssd, origin, [], 0)
    {
      this.blockSize, this.used, this.mapping := blockSize, used, mapping;
      this.ssd, this.origin, this.dmaBuf := ssd, origin, [];
      trims, pc := 0, Idle;
    }

    /** The lookup of `map_pio`: a write of a whole aligned block may insert it unfetched. */
    method LookUp(name: Name, page: nat, write: bool, cnt: nat) returns (hit: bool, cblock: nat)
      requires Valid()
      modifies mapping, mapping.es, mapping.free, mapping.clean, mapping.dirty,
               mapping.table, mapping.table.buckets, mapping.wq, mapping.wq.works
      ensures Valid()
      ensures mapping.st == if write then WriteLookup(old(mapping.st), name, page, cnt)
                            else Next(old(mapping.st), Lookup(KeyOf(name, page)))
      ensures Find(mapping.st, KeyOf(name, page)) == if hit then Some(cblock) else None
      ensures hit ==> cblock < mapping.es.Length
      ensures !write ==> Find(old(mapping.st), KeyOf(name, page)) == if hit then Some(cblock) else None
      ensures mapping.st.worker == old(mapping.st).worker
    {
      ghost var k, s := KeyOf(name, page), mapping.st;
      if write && Overwritable(page, cnt) {
        hit, cblock := mapping.LookupMappingWithInsert(name, page);
        AfterInsert(s, k);
        if hit { FindIs(mapping.st, k, cblock); }
      } else {
        hit, cblock := mapping.LookupMapping(name, page);
        AfterLookup(s, k);
      }
    }

    /** `write_cache`: the block is marked dirty once its pages are written. */
    method WriteCache(cblock: nat, page: nat, data: seq<Page>)
      requires Valid() && cblock < mapping.es.Length
      modifies this, mapping`st, mapping.es, mapping.clean, mapping.dirty
      ensures Valid()
      ensures var g := CodeAddresses(blockSize, used);
        AsDisk() == old(AsDisk()).(cache := Next(old(mapping.st), SetDirty(cblock)),
                                   ssd := Put(old(ssd), i => g.userLba(cblock, page, i), data))
    {
      var g := CodeAddresses(blockSize, used);
      ssd := Put(ssd, i => g.userLba(cblock, page, i), data);
      mapping.SetDirtyAfterWrite(cblock);
    }

    method WriteOrigin(name: Name, page: nat, data: seq<Page>)
      requires Valid()
      modifies `origin
      ensures Valid()
      ensures var g := CodeAddresses(blockSize, used);
        AsDisk() == old(AsDisk()).(origin := Put(old(origin), i => (name, g.userOff(page, i)), data))
    {
      var g := CodeAddresses(blockSize, used);
      origin := Put(origin, i => (name, g.userOff(page, i)), data);
    }

    /** A read request: rejected if it leaves its block, else served from the SSD or the file. It
        returns the truth whenever the disk is in agreement with flat storage. */
    method Read(name: Name, page: nat, cnt: nat, ghost flat: Flat) returns (ok: bool, pages: seq<Page>)
      requires Valid()
      modifies mapping, mapping.es, mapping.free, mapping.clean, mapping.dirty,
               mapping.table, mapping.table.buckets, mapping.wq, mapping.wq.works
      ensures Valid() && (ok <==> cnt == 0 || (page + cnt - 1) / 8 == page / 8)
      ensures !ok ==> pages == [] && AsDisk() == old(AsDisk())
      ensures ok ==> pages == ReadPages(old(AsDisk()), CodeAddresses(blockSize, used), name, page, cnt)
      ensures ok ==> AsDisk() == old(AsDisk()).(cache := Next(old(mapping.st), Lookup(KeyOf(name, page))))
      ensures ok && KeyOf(name, page) in used && old(Coherent(AsDisk(), CodeAddresses(blockSize, used), flat)) ==>
        pages == FlatPages(flat, name, page, cnt)
    {
      AcceptedExactly(page, cnt);
      ok, pages := CheckPio(page, cnt), [];
      if ok {
        var _, read := ReadVectors(name, page, cnt, flat);
        pages := read;
      }
    }

    /** A write request: rejected if it leaves its block, else done on the SSD, which marks the block
        dirty, or on the file. */
    method Write(name: Name, page: nat, data: seq<Page>) returns (ok: bool)
      requires Valid()
      modifies this, mapping, mapping.es, mapping.free, mapping.clean, mapping.dirty,
               mapping.table, mapping.table.buckets, mapping.wq, mapping.wq.works
      ensures Valid() && (ok <==> |data| == 0 || (page + |data| - 1) / 8 == page / 8)
      ensures AsDisk() == if ok then DoWrite(old(AsDisk()), CodeAddresses(blockSize, used), name, page, data)
                          else old(AsDisk())
    {
      AcceptedExactly(page, |data|);
      ok := CheckPio(page, |data|);
      if !ok {
        return;
      }
      var hit, cblock := LookUp(name, page, true, |data|);
      if hit {
        WriteCache(cblock, page, data);
      } else {
        WriteOrigin(name, page, data);
      }
    }

    /** `discard_pio`: rejected if it leaves its block, else the key is removed. If its block is in flight,
        the memory afterwards shows no state that satisfies the invariant. */
    method Discard(name: Name, page: nat, cnt: nat) returns (ok: bool)
      requires Valid()
      modifies mapping, mapping.es, mapping.free, mapping.clean, mapping.dirty,
               mapping.table, mapping.table.buckets
      ensures ok <==> cnt == 0 || (page + cnt - 1) / 8 == page / 8
      ensures !ok ==> Valid() && AsDisk() == old(AsDisk())
      ensures ok && Enabled(old(mapping.st), Remove(KeyOf(name, page))) ==>
        Valid() && AsDisk() == old(AsDisk()).(cache := Next(old(mapping.st), Remove(KeyOf(name, page))))
      ensures ok && !Enabled(old(mapping.st), Remove(KeyOf(name, page))) ==>
        forall s: State :: s.worker == pc ==> !(mapping.Shows(s) && Inv(s))
    {
      AcceptedExactly(page, cnt);
      ok := CheckPio(page, cnt);
      if !ok {
        return;
      }
      ghost var s := mapping.st;
      var _ := mapping.RemoveMapping(name, page);
      if Enabled(s, Remove(KeyOf(name, page))) { RemoveKeepsWorker(s, KeyOf(name, page)); }
    }

    /** `map_pio` of a write whose pages the buffer vectors name. */
    method WriteVectors(name: Name, page: nat, iovs: seq<Iovec>, mem: seq<bv8>, ghost buffers: seq<nat>)
      requires Valid() && |iovs| <= |buffers|
      requires forall i :: 0 <= i < |iovs| ==> iovs[i] == Iovec(buffers[i], PAGE_SIZE)
      requires forall i :: 0 <= i < |iovs| ==> buffers[i] + PAGE_SIZE <= |mem|
      modifies this, mapping, mapping.es, mapping.free, mapping.clean, mapping.dirty,
               mapping.table, mapping.table.buckets, mapping.wq, mapping.wq.works
      ensures Valid()
      ensures AsDisk() == DoWrite(old(AsDisk()), CodeAddresses(blockSize, used), name, page,
                                  UserPages(mem, buffers, |iovs|))
    {
      var hit, cblock := LookUp(name, page, true, |iovs|);
      var data := CarriedPages(iovs, mem, hit, buffers);
      if hit {
        WriteCache(cblock, page, data);
      } else {
        WriteOrigin(name, page, data);
      }
    }

    /** A write request as it comes from a user: a list of nodes whose buffers lie in memory. */
    method SubmitWrite(head: Pio, mem: seq<bv8>, ghost nodes: seq<Pio>, ghost h: Header, ghost buffers: seq<nat>)
      returns (ok: bool)
      requires Valid() && Request(nodes, h, buffers) && nodes[0] == head && h.page < WORD && h.cnt <= |nodes|
      requires forall i :: 0 <= i < h.cnt ==> buffers[i] + PAGE_SIZE <= |mem|
      modifies this, mapping, mapping.es, mapping.free, mapping.clean, mapping.dirty,
               mapping.table, mapping.table.buckets, mapping.wq, mapping.wq.works
      ensures Valid() && (ok <==> h.cnt == 0 || (h.page + h.cnt - 1) / 8 == h.page / 8)
      ensures AsDisk() == if ok then DoWrite(old(AsDisk()), CodeAddresses(blockSize, used), h.name, h.page,
                                             UserPages(mem, buffers, h.cnt))
                          else old(AsDisk())
    {
      var name, page, cnt := HeadOf(head, nodes, h, buffers);
      AcceptedExactly(page, cnt);
      ok := CheckPio(page, cnt);
      if ok {
        var iovs := Vectors(head, nodes, h, buffers);
        WriteVectors(name, page, iovs, mem, buffers);
      }
    }

    /** A read request as it comes from a user: page `i` goes to buffer `i`, and no other memory changes. */
    method SubmitRead(head: Pio, mem: array<bv8>, ghost flat: Flat,
                      ghost nodes: seq<Pio>, ghost h: Header, ghost buffers: seq<nat>)
      returns (ok: bool)
      requires Valid() && Request(nodes, h, buffers) && nodes[0] == head && h.page < WORD && h.cnt <= |nodes|
      requires DisjointBuffers(buffers, h.cnt, mem.Length) && Foreign(mem)
      modifies mem, mapping, mapping.es, mapping.free, mapping.clean, mapping.dirty,
               mapping.table, mapping.table.buckets, mapping.wq, mapping.wq.works
      ensures Valid() && (ok <==> h.cnt == 0 || (h.page + h.cnt - 1) / 8 == h.page / 8)
      ensures !ok ==> mem[..] == old(mem[..]) && AsDisk() == old(AsDisk())
      ensures ok ==> AsDisk() == old(AsDisk()).(cache := Next(old(mapping.st), Lookup(KeyOf(h.name, h.page))))
      ensures ok ==> Received(mem[..], buffers,
        FitAll(ReadPages(old(AsDisk()), CodeAddresses(blockSize, used), h.name, h.page, h.cnt)))
      ensures ok && KeyOf(h.name, h.page) in used && old(Coherent(AsDisk(), CodeAddresses(blockSize, used), flat)) ==>
        Received(mem[..], buffers, FitAll(FlatPages(flat, h.name, h.page, h.cnt)))
      ensures forall a: nat :: a < mem.Length && Outside(buffers, h.cnt, a) ==> mem[a] == old(mem[a])
    {
      var name, page, cnt := HeadOf(head, nodes, h, buffers);
      var iovs := Vectors(head, nodes, h, buffers);
      AcceptedExactly(page, cnt);
      ok := CheckPio(page, cnt);
      if ok {
        var hit, pages := ReadVectors(name, page, cnt, flat);
        Deliver(iovs, mem, hit, FitAll(pages), buffers);
      }
    }

    /** An array of the user's is none of the cache's. */
    ghost predicate Foreign(o: object) {
      o != mapping.es && o != mapping.table.buckets && o != mapping.wq.works
    }

    method Deliver(iovs: seq<Iovec>, mem: array<bv8>, walk: bool, pages: seq<seq<bv8>>, ghost buffers: seq<nat>)
      requires Valid() && |iovs| == |pages| && (forall m :: 0 <= m < |pages| ==> |pages[m]| == PAGE_SIZE)
      requires DisjointBuffers(buffers, |iovs|, mem.Length) && Foreign(mem)
      requires forall i :: 0 <= i < |iovs| ==> iovs[i] == Iovec(buffers[i], PAGE_SIZE)
      modifies mem
      ensures Valid() && AsDisk() == old(AsDisk()) && Received(mem[..], buffers, pages)
      ensures forall a: nat :: a < mem.Length && Outside(buffers, |iovs|, a) ==> mem[a] == old(mem[a])
    {
      DeliverPages(iovs, mem, walk, pages, buffers);
    }

    /** `map_pio` of a read that passes the check, with where it was served from. */
    method ReadVectors(name: Name, page: nat, cnt: nat, ghost flat: Flat) returns (hit: bool, pages: seq<Page>)
      requires Valid() && CheckPio(page, cnt)
      modifies mapping, mapping.es, mapping.free, mapping.clean, mapping.dirty,
               mapping.table, mapping.table.buckets, mapping.wq, mapping.wq.works
      ensures Valid() && |pages| == cnt && hit == Hashed(old(mapping.st), KeyOf(name, page))
      ensures pages == ReadPages(old(AsDisk()), CodeAddresses(blockSize, used), name, page, cnt)
      ensures AsDisk() == old(AsDisk()).(cache := Next(old(mapping.st), Lookup(KeyOf(name, page))))
      ensures KeyOf(name, page) in used && old(Coherent(AsDisk(), CodeAddresses(blockSize, used), flat)) ==>
        pages == FlatPages(flat, name, page, cnt)
    {
      ghost var d := AsDisk();
      var g := CodeAddresses(blockSize, used);
      var cblock;
      hit, cblock := LookUp(name, page, false, cnt);
      if hit {
        pages := CachePages(ssd, g, cblock, page, cnt);
      } else {
        pages := FilePages(origin, g, name, page, cnt);
      }
      if Used(g, KeyOf(name, page)) && Coherent(d, g, flat) { ReadsTruth(d, g, flat, name, page, cnt); }
    }

    // ---------- the worker, phase by phase ----------

    method Peek()
      requires Valid() && pc.Idle?
      modifies `pc, mapping`st
      ensures Valid() && AsDisk() == old(AsDisk()).(cache := Next(old(mapping.st), Action.Peek))
    {
      var key := mapping.PeekWork();
      if key.Some? { pc := Trying(Promotion, key.value); }
    }

    /** The next of the three attempts. */
    method Attempt()
      requires Valid() && pc.Trying?
      modifies `pc, mapping, mapping.es, mapping.free, mapping.clean, mapping.dirty
      ensures Valid() && AsDisk() == old(AsDisk()).(cache := Next(old(mapping.st), Action.Attempt))
    {
      var ok, cblock := mapping.Reserve(pc.kind, pc.key);
      pc := if ok then Moving(pc.kind, pc.key, cblock, Reserved) else GiveUp(pc);
    }

    /** The first half of `mg_start`: a file block for a promotion, or a cache block for a writeback,
        into the worker's buffer. */
    method LoadBlock(ok: bool)
      requires Valid() && Enabled(mapping.st, Load(ok))
      modifies `dmaBuf, `pc, mapping`st
      ensures Valid() && AsDisk() == DoWork(old(AsDisk()), CodeAddresses(blockSize, used), Load(ok), [])
    {
      if !ok {
        LoadFails();
      } else if pc.kind.Promotion? {
        LoadFromFile();
      } else {
        LoadFromCache();
      }
    }

    method LoadFails()
      requires Valid() && Enabled(mapping.st, Load(false))
      modifies `pc, mapping`st
      ensures Valid() && AsDisk() == old(AsDisk()).(cache := Next(old(mapping.st), Load(false)))
    {
      mapping.NextStage(Load(false));
      pc := pc.(stage := StageAfter(Load(false)));
    }

    method LoadFromFile()
      requires Valid() && Enabled(mapping.st, Load(true))
      modifies `dmaBuf, `pc, mapping`st
      ensures Valid()
      ensures var d, g := old(AsDisk()), CodeAddresses(blockSize, used);
        var k := d.cache.worker.key;
        AsDisk() == d.(cache := Next(d.cache, Load(true)),
                       buf := BlockPages(d.origin, j => (k.name, g.moveOff(k.page, j))))
    {
      var g, key := CodeAddresses(blockSize, used), pc.key;
      dmaBuf := BlockPages(origin, j => (key.name, g.moveOff(key.page, j)));
      mapping.NextStage(Load(true));
      pc := pc.(stage := StageAfter(Load(true)));
    }

    method LoadFromCache()
      requires Valid() && Enabled(mapping.st, Load(true))
      modifies `dmaBuf, `pc, mapping`st
      ensures Valid()
      ensures var d, g := old(AsDisk()), CodeAddresses(blockSize, used);
        AsDisk() == d.(cache := Next(d.cache, Load(true)),
                       buf := BlockPages(d.ssd, j => g.moveLba(d.cache.worker.block, j)))
    {
      var g, cblock := CodeAddresses(blockSize, used), pc.block;
      dmaBuf := BlockPages(ssd, j => g.moveLba(cblock, j));
      mapping.NextStage(Load(true));
      pc := pc.(stage := StageAfter(Load(true)));
    }

    /** The second half: the buffer to a cache block for a promotion, or to the file named by the entry
        for a writeback. A store that fails leaves something in its place. */
    method StoreBlock(ok: bool, left: seq<Page>)
      requires Valid() && Enabled(mapping.st, Store(ok))
      modifies `ssd, `origin, `pc, mapping`st
      ensures Valid() && AsDisk() == DoWork(old(AsDisk()), CodeAddresses(blockSize, used), Store(ok), left)
    {
      if pc.kind.Promotion? {
        StoreToCache(ok, if ok then dmaBuf else left);
      } else {
        StoreToFile(ok, if ok then dmaBuf else left);
      }
    }

    method StoreToCache(ok: bool, data: seq<Page>)
      requires Valid() && Enabled(mapping.st, Store(ok)) && pc.kind.Promotion?
      modifies `ssd, `pc, mapping`st
      ensures Valid()
      ensures var d, g := old(AsDisk()), CodeAddresses(blockSize, used);
        AsDisk() == d.(cache := Next(d.cache, Store(ok)),
                       ssd := Put(d.ssd, j => g.moveLba(d.cache.worker.block, j), data))
    {
      var g, cblock := CodeAddresses(blockSize, used), pc.block;
      ssd := Put(ssd, j => g.moveLba(cblock, j), data);
      mapping.NextStage(Store(ok));
      pc := pc.(stage := StageAfter(Store(ok)));
    }

    method StoreToFile(ok: bool, data: seq<Page>)
      requires Valid() && Enabled(mapping.st, Store(ok)) && pc.block < |mapping.st.slots|
      modifies `origin, `pc, mapping`st
      ensures Valid()
      ensures var d, g := old(AsDisk()), CodeAddresses(blockSize, used);
        var k := d.cache.slots[d.cache.worker.block].key;
        AsDisk() == d.(cache := Next(d.cache, Store(ok)),
                       origin := Put(d.origin, j => (k.name, g.moveOff(k.page, j)), data))
    {
      var g := CodeAddresses(blockSize, used);
      mapping.SlotAt(pc.block);
      var key := mapping.es[pc.block].key;
      origin := Put(origin, j => (key.name, g.moveOff(key.page, j)), data);
      mapping.NextStage(Store(ok));
      pc := pc.(stage := StageAfter(Store(ok)));
    }

    /** The transfer of a demotion: a trim is submitted. */
    method SubmitTrim()
      requires Valid() && Enabled(mapping.st, Trim)
      modifies `trims, `pc, mapping`st
      ensures Valid() && AsDisk() == DoWork(old(AsDisk()), CodeAddresses(blockSize, used), Trim, [])
    {
      mapping.NextStage(Trim);
      trims := trims + 1;
      pc := pc.(stage := StageAfter(Trim));
    }

    /** The device carries out a submitted trim, or part of it. */
    method TrimBlock(left: seq<Page>, done: bool)
      requires Valid() && trims > 0
      modifies `ssd, `trims
      ensures Valid() && AsDisk() == DoTrim(old(AsDisk()), CodeAddresses(blockSize, used), left, done)
    {
      var g := CodeAddresses(blockSize, used);
      ssd := Put(ssd, j => g.moveLba(0, j), left);
      trims := if done then trims - 1 else trims;
    }

    method Complete()
      requires Valid() && pc.Moving? && pc.stage.Moved?
      modifies `pc, mapping, mapping.es, mapping.free, mapping.clean, mapping.dirty,
               mapping.table, mapping.table.buckets
      ensures Valid() && AsDisk() == old(AsDisk()).(cache := Next(old(mapping.st), Action.Complete))
    {
      mapping.CompleteMove(pc.kind, pc.key, pc.block, pc.stage.ok);
      pc := Finished(pc.key);
    }

    method RemoveWork()
      requires Valid() && pc.Finished?
      modifies `pc, mapping`st, mapping.wq
      ensures Valid() && AsDisk() == old(AsDisk()).(cache := Next(old(mapping.st), Action.RemoveWork))
    {
      mapping.RemoveDone();
      pc := Idle;
    }

    /** Any phase of the worker: the devices and the mapping take the disk model's step. */
    method WorkerStep(a: Action, left: seq<Page>)
      requires Valid() && WorkerAction(a) && Enabled(mapping.st, a)
      modifies this, mapping, mapping.es, mapping.free, mapping.clean, mapping.dirty,
               mapping.table, mapping.table.buckets, mapping.wq
      ensures Valid() && AsDisk() == DoWork(old(AsDisk()), CodeAddresses(blockSize, used), a, left)
    {
      match a {
        case Peek => Peek();
        case Attempt => Attempt();
        case Load(ok) => LoadBlock(ok);
        case Store(ok) => StoreBlock(ok, left);
        case Trim => SubmitTrim();
        case Complete => Complete();
        case RemoveWork => RemoveWork();
      }
    }

    /** The worker's next phase, which its program counter chooses; `ok` says how a transfer goes. */
    method WorkerTurn(ok: bool, left: seq<Page>)
      requires Valid()
      modifies this, mapping, mapping.es, mapping.free, mapping.clean, mapping.dirty,
               mapping.table, mapping.table.buckets, mapping.wq
      ensures Valid() && Enabled(old(mapping.st), TurnOf(old(pc), ok))
      ensures AsDisk() == DoWork(old(AsDisk()), CodeAddresses(blockSize, used), TurnOf(old(pc), ok), left)
    {
      TurnEnabled(mapping.st, ok);
      WorkerStep(TurnOf(pc, ok), left);
    }

    // ---------- users and the worker together ----------

    /** One event, with what it shows its caller. */
    method Handle(e: Event) returns (out: seq<Page>)
      requires Valid() && Possible(AsDisk(), e)
      modifies this, mapping, mapping.es, mapping.free, mapping.clean, mapping.dirty,
               mapping.table, mapping.table.buckets, mapping.wq, mapping.wq.works
      ensures Valid() && AsDisk() == Apply(old(AsDisk()), CodeAddresses(blockSize, used), e)
      ensures out == Output(old(AsDisk()), CodeAddresses(blockSize, used), e)
    {
      out := [];
      match e {
        case Read(name, page, cnt) =>
          AcceptedExactly(page, cnt);
          var _, pages := Read(name, page, cnt, map[]);
          out := pages;
        case Write(name, page, data) =>
          AcceptedExactly(page, |data|);
          var _ := Write(name, page, data);
        case Discard(name, page, cnt) =>
          AcceptedExactly(page, cnt);
          var _ := Discard(name, page, cnt);
        case Work(a, left) => WorkerStep(a, left);
        case TrimActs(left, done) => TrimBlock(left, done);
      }
    }

    /** Any schedule of requests, worker's phases and trims: the memory and the devices go through the
        disk model's run, and if its events are allowed, callers see flat storage. */
    method RunSchedule(es: seq<Event>, ghost flat: Flat) returns (outs: seq<seq<Page>>)
      requires Valid() && AllPossible(AsDisk(), CodeAddresses(blockSize, used), es)
      modifies this, mapping, mapping.es, mapping.free, mapping.clean, mapping.dirty,
               mapping.table, mapping.table.buckets, mapping.wq, mapping.wq.works
      ensures Valid() && AsDisk() == Ending(old(AsDisk()), CodeAddresses(blockSize, used), es)
      ensures outs == Outputs(old(AsDisk()), CodeAddresses(blockSize, used), es)
      ensures old(Coherent(AsDisk(), CodeAddresses(blockSize, used), flat)
                  && AllAllowed(AsDisk(), CodeAddresses(blockSize, used), es)) ==>
        outs == FlatOutputs(flat, es) && Coherent(AsDisk(), CodeAddresses(blockSize, used), FlatAfter(flat, es))
    {
      ghost var d, g := AsDisk(), CodeAddresses(blockSize, used);
      outs := [];
      for i := 0 to |es|
        invariant Valid() && AllPossible(d, g, es[..i])
        invariant AsDisk() == Ending(d, g, es[..i]) && outs == Outputs(d, g, es[..i])
      {
        NextPrefix(d, g, es, i);
        var out := Handle(es[i]);
        outs := outs + [out];
      }
      assert es[..|es|] == es;
      if Coherent(d, g, flat) && AllAllowed(d, g, es) { RunRefinesFlat(d, g, flat, es); }
    }
  }

  /** The phase that follows in the program of `do_migration_work`. */
  function TurnOf(w: Worker, ok: bool): Action {
    match w
    case Idle => Peek
    case Trying(_, _) => Attempt
    case Moving(kind, _, _, Reserved) => if kind.Demotion? then Trim else Load(ok)
    case Moving(_, _, _, Loaded) => Store(ok)
    case Moving(_, _, _, Moved(_)) => Complete
    case Finished(_) => RemoveWork
  }

  lemma TurnEnabled(s: State, ok: bool)
    ensures WorkerAction(TurnOf(s.worker, ok)) && Enabled(s, TurnOf(s.worker, ok))
  {
  }

  /** The program counter leaves the worker no choice but how its transfers go. */
  lemma OnlyTurns(s: State, a: Action)
    ensures WorkerAction(a) && Enabled(s, a) <==> a == TurnOf(s.worker, true) || a == TurnOf(s.worker, false)
  {
    TurnEnabled(s, true);
    TurnEnabled(s, false);
  }

  lemma RemoveKeepsWorker(s: State, k: Key)
    requires Inv(s) && Enabled(s, Remove(k))
    ensures Next(s, Remove(k)).worker == s.worker
  {
  }
}
