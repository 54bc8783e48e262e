/** The cache is indistinguishable from flat storage, with user requests atomic and the worker's
    reserve, load, store, trim, completion and removal interleaved with them in any order. */
module Coherence {
  import opened Sequences
  import opened Works
  import opened CacheMachine
  import opened CacheInvariant
  import opened Geometry
  import opened FlatStorage

  // ---------- which events the theorem is about ----------

  /** A write that the worker would lose: its key is being promoted and the worker has read the
      file already, or its block is being demoted. */
  ghost predicate Hazard(s: State, k: Key) {
    s.worker.Moving? &&
    match s.worker.kind
    case Promotion => s.worker.key == k && (s.worker.stage.Loaded? || s.worker.stage == Moved(true))
    case Demotion => Holds(s, k, s.worker.block)
    case Writeback => false
  }

  /** Cache block 0 has contents that somebody will read. */
  ghost predicate BlockZeroInUse(s: State) {
    || 0 in s.hashed
    || (s.worker.Moving? && s.worker.kind.Promotion? && s.worker.block == 0 && s.worker.stage == Moved(true))
  }

  /** Carrying out a trim does no harm: the device leaves the contents of cache block 0 alone, or
      nobody will read them. */
  ghost predicate TrimHarmless(d: Disk, g: Addresses, left: seq<Page>) {
    BlockZeroInUse(d.cache) ==> forall j: nat :: j < |left| && j < 8 ==> left[j] == SsdAt(d, g, 0, j)
  }

  ghost predicate WorkerAction(a: Action) {
    a.Peek? || a.Attempt? || a.Load? || a.Store? || a.Trim? || a.Complete? || a.RemoveWork?
  }

  /** The events that can happen next. A discard asks, as in the machine, that its block is not in
      flight. */
  ghost predicate Possible(d: Disk, e: Event) {
    match e
    case Read(_, _, _) => true
    case Write(_, _, _) => true
    case Discard(name, page, cnt) => CheckPio(page, cnt) ==> Enabled(d.cache, Remove(KeyOf(name, page)))
    case Work(a, left) => WorkerAction(a) && Enabled(d.cache, a) && |left| <= 8
    case TrimActs(left, _) => d.trims > 0 && |left| <= 8
  }

  /** The events under which the cache is flat storage: pages are of blocks in use, no write is a hazard,
      nothing is discarded that the file lacks, a writeback that failed completes only if a write has
      marked its block meanwhile, and trims do no harm. Promotions may fail, and so may writebacks. */
  ghost predicate Allowed(d: Disk, g: Addresses, e: Event)
    requires Inv(d.cache)
  {
    Possible(d, e) &&
    match e
    case Read(name, page, _) => Used(g, KeyOf(name, page))
    case Write(name, page, _) => Used(g, KeyOf(name, page)) && !Hazard(d.cache, KeyOf(name, page))
    case Discard(name, page, cnt) => CheckPio(page, cnt) ==> OriginCurrent(d.cache, KeyOf(name, page))
    case Work(a, _) =>
      var w := d.cache.worker;
      a.Complete? && w.kind.Writeback? && w.stage == Moved(false) ==> d.cache.slots[w.block].dirty
    case TrimActs(left, _) => TrimHarmless(d, g, left)
  }

  ghost function Apply(d: Disk, g: Addresses, e: Event): (r: Disk)
    requires Inv(d.cache) && Possible(d, e)
    ensures Inv(r.cache)
  {
    match e
    case Read(name, page, cnt) =>
      if CheckPio(page, cnt) then d.(cache := Next(d.cache, Lookup(KeyOf(name, page)))) else d
    case Write(name, page, data) => if CheckPio(page, |data|) then DoWrite(d, g, name, page, data) else d
    case Discard(name, page, cnt) =>
      if CheckPio(page, cnt) then d.(cache := Next(d.cache, Remove(KeyOf(name, page)))) else d
    case Work(a, left) => DoWork(d, g, a, left)
    case TrimActs(left, done) => DoTrim(d, g, left, done)
  }

  /** Flat storage serves the requests that stay in one block, and rejects the others. */
  ghost function FlatApply(flat: Flat, e: Event): Flat {
    if e.Write? && InOneBlock(e.page, |e.data|) then FlatWrite(flat, e.name, e.page, e.data) else flat
  }

  /** What an event shows its caller. */
  ghost function Output(d: Disk, g: Addresses, e: Event): seq<Page> {
    if e.Read? && CheckPio(e.page, e.cnt) then ReadPages(d, g, e.name, e.page, e.cnt) else []
  }

  ghost function FlatOutput(flat: Flat, e: Event): seq<Page> {
    if e.Read? && InOneBlock(e.page, e.cnt) then FlatPages(flat, e.name, e.page, e.cnt) else []
  }

  // ---------- reads ----------

  lemma ReadsTruth(d: Disk, g: Addresses, flat: Flat, name: Name, page: nat, cnt: nat)
    requires Coherent(d, g, flat) && Used(g, KeyOf(name, page)) && CheckPio(page, cnt)
    ensures ReadPages(d, g, name, page, cnt) == FlatPages(flat, name, page, cnt)
  {
    var k := KeyOf(name, page);
    forall i: nat | i < cnt
      ensures ReadPages(d, g, name, page, cnt)[i] == FlatPages(flat, name, page, cnt)[i]
    {
      assert Truth(flat, k, page % 8 + i) == Get(flat, (name, page + i));
      if Hashed(d.cache, k) {
        assert SsdAt(d, g, Find(d.cache, k).value, page % 8 + i) == Truth(flat, k, page % 8 + i);
      } else {
        assert OriginCurrent(d.cache, k);
        assert OriginAt(d, g, k, page % 8 + i) == Truth(flat, k, page % 8 + i);
      }
    }
  }

  /** A change of the lists, the queue or the worker's program counter, away from its transfers. */
  lemma ViewKept(d: Disk, g: Addresses, flat: Flat, t: State)
    requires Coherent(d, g, flat) && Inv(t) && UsedKeys(g, t)
    requires t.hashed == d.cache.hashed && t.slots == d.cache.slots
    requires t.worker == d.cache.worker || (!t.worker.Moving? && !d.cache.worker.Moving?)
    ensures Coherent(d.(cache := t), g, flat)
  {
    var e := d.(cache := t);
    assert forall k, b: nat :: Holds(t, k, b) <==> Holds(d.cache, k, b);
    forall k: Key, j: nat | Used(g, k) && j < 8 && OriginCurrent(t, k)
      ensures OriginAt(e, g, k, j) == Truth(flat, k, j)
    {
      assert OriginCurrent(d.cache, k);
      assert OriginAt(e, g, k, j) == OriginAt(d, g, k, j);
    }
    assert forall b: nat, j: nat :: SsdAt(e, g, b, j) == SsdAt(d, g, b, j);
  }

  // ---------- writes ----------

  /** A write to the file of a block that is not cached. */
  lemma MissKept(d: Disk, g: Addresses, flat: Flat, name: Name, page: nat, data: seq<Page>, e: Disk)
    requires Coherent(d, g, flat) && Used(g, KeyOf(name, page)) && CheckPio(page, |data|)
    requires !Hashed(d.cache, KeyOf(name, page)) && !Hazard(d.cache, KeyOf(name, page))
    requires e == d.(origin := Put(d.origin, i => (name, g.userOff(page, i)), data))
    ensures Coherent(e, g, FlatWrite(flat, name, page, data))
  {
    var k, flat' := KeyOf(name, page), FlatWrite(flat, name, page, data);
    forall b: nat, j: nat | b in d.cache.hashed && b < |d.cache.slots| && j < 8
      ensures SsdAt(e, g, b, j) == Truth(flat', d.cache.slots[b].key, j)
    {
      assert SsdAt(d, g, b, j) == Truth(flat, d.cache.slots[b].key, j);
      assert Holds(d.cache, d.cache.slots[b].key, b);
      TruthAfterWrite(flat, name, page, data, d.cache.slots[b].key, j);
    }
    forall q: Key, j: nat | Used(g, q) && j < 8 && OriginCurrent(d.cache, q)
      ensures OriginAt(e, g, q, j) == Truth(flat', q, j)
    {
      assert OriginAt(d, g, q, j) == Truth(flat, q, j);
      TruthAfterWrite(flat, name, page, data, q, j);
      OriginAfterWrite(d, g, e, name, page, data, q, j);
    }
    MissWorker(d, g, flat, name, page, data, e);
  }

  lemma MissWorker(d: Disk, g: Addresses, flat: Flat, name: Name, page: nat, data: seq<Page>, e: Disk)
    requires Inv(d.cache) && WorkerTrue(d, g, flat) && CheckPio(page, |data|)
    requires !Hashed(d.cache, KeyOf(name, page)) && !Hazard(d.cache, KeyOf(name, page))
    requires e.cache == d.cache && e.ssd == d.ssd && e.buf == d.buf
    ensures WorkerTrue(e, g, FlatWrite(flat, name, page, data))
  {
    var s := d.cache;
    var w := s.worker;
    if w.Moving? {
      if w.kind.Writeback? { assert Holds(s, s.slots[w.block].key, w.block); }
      forall j: nat | j < 8
        ensures Truth(FlatWrite(flat, name, page, data), w.key, j) ==
          if w.key == KeyOf(name, page) && page % 8 <= j < page % 8 + |data| then data[j - page % 8]
          else Truth(flat, w.key, j)
        ensures Truth(FlatWrite(flat, name, page, data), s.slots[w.block].key, j) ==
          if s.slots[w.block].key == KeyOf(name, page) && page % 8 <= j < page % 8 + |data| then data[j - page % 8]
          else Truth(flat, s.slots[w.block].key, j)
        ensures SsdAt(e, g, w.block, j) == SsdAt(d, g, w.block, j)
      {
        TruthAfterWrite(flat, name, page, data, w.key, j);
        TruthAfterWrite(flat, name, page, data, s.slots[w.block].key, j);
      }
    }
  }

  /** `u` is the cache after a write found or inserted block `b` for key `k` and marked it dirty. */
  ghost predicate Landed(s: State, u: State, k: Key, b: nat, whole: bool) {
    && Inv(s) && Inv(u) && |u.slots| == |s.slots| && u.worker == s.worker
    && Holds(u, k, b) && u.slots[b].dirty
    && (forall c: nat :: c < |s.slots| && c != b ==> u.slots[c] == s.slots[c])
    && (forall c: nat :: c != b ==> (c in u.hashed <==> c in s.hashed))
    && (if whole && !Hashed(s, k) then b !in s.hashed && !InFlight(s, b) else Holds(s, k, b))
  }

  lemma WriteFinds(s: State, name: Name, page: nat, cnt: nat, b: nat)
    requires Inv(s) && Find(s, KeyOf(name, page)) == Some(b)
    ensures var t := WriteLookup(s, name, page, cnt);
      && Find(t, KeyOf(name, page)) == Some(b) && b < |t.slots|
      && Landed(s, Next(t, SetDirty(b)), KeyOf(name, page), b, Overwritable(page, cnt))
  {
    assert Holds(WriteLookup(s, name, page, cnt), KeyOf(name, page), b);
  }

  lemma WriteInserts(s: State, name: Name, page: nat, cnt: nat)
    requires Inv(s) && Overwritable(page, cnt) && CanInsert(s, KeyOf(name, page))
    ensures var t, b := WriteLookup(s, name, page, cnt), s.free[0];
      && Find(t, KeyOf(name, page)) == Some(b) && b < |t.slots|
      && Landed(s, Next(t, SetDirty(b)), KeyOf(name, page), b, true)
  {
    assert s.free[0] in s.free;
    assert Holds(WriteLookup(s, name, page, cnt), KeyOf(name, page), s.free[0]);
  }

  lemma WriteMisses(s: State, name: Name, page: nat, cnt: nat)
    requires Inv(s) && !Hashed(s, KeyOf(name, page))
    requires !(Overwritable(page, cnt) && CanInsert(s, KeyOf(name, page)))
    ensures var t := WriteLookup(s, name, page, cnt);
      && t.hashed == s.hashed && t.slots == s.slots && t.worker == s.worker
      && Find(t, KeyOf(name, page)) == None
  {
    assert forall k, b: nat :: Holds(WriteLookup(s, name, page, cnt), k, b) ==> Holds(s, k, b);
  }

  ghost predicate HitWrite(d: Disk, g: Addresses, flat: Flat, e: Disk, name: Name, page: nat,
                           data: seq<Page>, b: nat) {
    && Coherent(d, g, flat) && Used(g, KeyOf(name, page)) && CheckPio(page, |data|)
    && Landed(d.cache, e.cache, KeyOf(name, page), b, Overwritable(page, |data|))
    && !Hazard(d.cache, KeyOf(name, page)) && UsedKeys(g, e.cache)
    && e == d.(cache := e.cache, ssd := Put(d.ssd, i => g.userLba(b, page, i), data))
  }

  lemma HitCache(d: Disk, g: Addresses, flat: Flat, e: Disk, name: Name, page: nat, data: seq<Page>, b: nat)
    requires HitWrite(d, g, flat, e, name, page, data, b)
    ensures CacheTrue(e, g, FlatWrite(flat, name, page, data))
  {
    var k, flat' := KeyOf(name, page), FlatWrite(flat, name, page, data);
    forall c: nat, j: nat | c in e.cache.hashed && c < |e.cache.slots| && j < 8
      ensures SsdAt(e, g, c, j) == Truth(flat', e.cache.slots[c].key, j)
    {
      var q := e.cache.slots[c].key;
      assert Holds(e.cache, q, c);
      TruthAfterWrite(flat, name, page, data, q, j);
      SsdAfterWrite(d, g, e, b, page, data, c, j);
      if c in d.cache.hashed && d.cache.slots[c].key == q {
        assert SsdAt(d, g, c, j) == Truth(flat, q, j);
      }
    }
  }

  lemma HitOrigin(d: Disk, g: Addresses, flat: Flat, e: Disk, name: Name, page: nat, data: seq<Page>, b: nat)
    requires HitWrite(d, g, flat, e, name, page, data, b)
    ensures OriginTrue(e, g, FlatWrite(flat, name, page, data))
  {
    var s, u := d.cache, e.cache;
    var k, flat' := KeyOf(name, page), FlatWrite(flat, name, page, data);
    forall q: Key, j: nat | Used(g, q) && j < 8 && OriginCurrent(u, q)
      ensures OriginAt(e, g, q, j) == Truth(flat', q, j)
    {
      assert q != k;
      forall c: nat | Holds(s, q, c) ensures Settled(s, c) {
        assert Holds(u, q, c) && Settled(u, c);
      }
      assert OriginAt(d, g, q, j) == Truth(flat, q, j);
      TruthAfterWrite(flat, name, page, data, q, j);
      assert OriginAt(e, g, q, j) == OriginAt(d, g, q, j);
    }
  }

  lemma HitWorker(d: Disk, g: Addresses, flat: Flat, e: Disk, name: Name, page: nat, data: seq<Page>, b: nat)
    requires HitWrite(d, g, flat, e, name, page, data, b)
    ensures WorkerTrue(e, g, FlatWrite(flat, name, page, data))
  {
    var s, u, w := d.cache, e.cache, d.cache.worker;
    if w.Moving? {
      if w.kind.Promotion? {
        assert !Hashed(u, u.queue[0]);
        assert w.key != KeyOf(name, page) && w.block != b;
      } else {
        assert Holds(s, s.slots[w.block].key, w.block);
        assert Holds(u, u.slots[w.block].key, w.block);
      }
      forall j: nat | j < 8
        ensures w.block != b ==> SsdAt(e, g, w.block, j) == SsdAt(d, g, w.block, j)
        ensures w.key != KeyOf(name, page) ==>
          Truth(FlatWrite(flat, name, page, data), w.key, j) == Truth(flat, w.key, j)
        ensures s.slots[w.block].key != KeyOf(name, page) ==>
          Truth(FlatWrite(flat, name, page, data), s.slots[w.block].key, j) == Truth(flat, s.slots[w.block].key, j)
      {
        SsdAfterWrite(d, g, e, b, page, data, w.block, j);
        TruthAfterWrite(flat, name, page, data, w.key, j);
        TruthAfterWrite(flat, name, page, data, s.slots[w.block].key, j);
      }
    }
  }

  lemma LookupKeepsUsed(g: Addresses, s: State, a: Action, k: Key)
    requires Inv(s) && UsedKeys(g, s) && Used(g, k) && (a == Lookup(k) || a == LookupInsert(k))
    ensures UsedKeys(g, Next(s, a)) && Next(s, a).worker == s.worker
  {
    var t := Next(s, a);
    forall b: nat | b in t.hashed && b < |t.slots| ensures Used(g, t.slots[b].key) {
      if b in s.hashed { assert Used(g, s.slots[b].key); }
    }
  }

  lemma HitKept(d: Disk, g: Addresses, flat: Flat, name: Name, page: nat, data: seq<Page>, b: nat, e: Disk)
    requires HitWrite(d, g, flat, e, name, page, data, b)
    ensures Coherent(e, g, FlatWrite(flat, name, page, data))
  {
    HitCache(d, g, flat, e, name, page, data, b);
    HitOrigin(d, g, flat, e, name, page, data, b);
    HitWorker(d, g, flat, e, name, page, data, b);
  }

  lemma WriteKeptOnHit(d: Disk, g: Addresses, flat: Flat, name: Name, page: nat, data: seq<Page>, b: nat,
                       t: State, u: State)
    requires Coherent(d, g, flat) && Used(g, KeyOf(name, page)) && CheckPio(page, |data|)
    requires !Hazard(d.cache, KeyOf(name, page))
    requires t == WriteLookup(d.cache, name, page, |data|) && Find(t, KeyOf(name, page)) == Some(b)
    requires b < |t.slots| && UsedKeys(g, t) && u == Next(t, SetDirty(b))
    requires Landed(d.cache, u, KeyOf(name, page), b, Overwritable(page, |data|))
    ensures Coherent(DoWrite(d, g, name, page, data), g, FlatWrite(flat, name, page, data))
  {
    var e := d.(cache := u, ssd := Put(d.ssd, i => g.userLba(b, page, i), data));
    assert UsedKeys(g, u);
    HitKept(d, g, flat, name, page, data, b, e);
    assert e == DoWrite(d, g, name, page, data);
  }

  lemma WriteKeptOnMiss(d: Disk, g: Addresses, flat: Flat, name: Name, page: nat, data: seq<Page>)
    requires Coherent(d, g, flat) && Used(g, KeyOf(name, page)) && CheckPio(page, |data|)
    requires !Hazard(d.cache, KeyOf(name, page)) && !Hashed(d.cache, KeyOf(name, page))
    requires !(Overwritable(page, |data|) && CanInsert(d.cache, KeyOf(name, page)))
    requires UsedKeys(g, WriteLookup(d.cache, name, page, |data|))
    ensures Coherent(DoWrite(d, g, name, page, data), g, FlatWrite(flat, name, page, data))
  {
    var t := WriteLookup(d.cache, name, page, |data|);
    WriteMisses(d.cache, name, page, |data|);
    ViewKept(d, g, flat, t);
    MissKept(d.(cache := t), g, flat, name, page, data, DoWrite(d, g, name, page, data));
  }

  /** A write that is no hazard leaves the disk and flat storage in agreement. */
  lemma WriteKept(d: Disk, g: Addresses, flat: Flat, name: Name, page: nat, data: seq<Page>)
    requires Coherent(d, g, flat) && Used(g, KeyOf(name, page)) && CheckPio(page, |data|)
    requires !Hazard(d.cache, KeyOf(name, page))
    ensures Coherent(DoWrite(d, g, name, page, data), g, FlatWrite(flat, name, page, data))
  {
    var s, k := d.cache, KeyOf(name, page);
    var t := WriteLookup(s, name, page, |data|);
    LookupKeepsUsed(g, s, if Overwritable(page, |data|) then LookupInsert(k) else Lookup(k), k);
    if Hashed(s, k) {
      var b := Find(s, k).value;
      WriteFinds(s, name, page, |data|, b);
      WriteKeptOnHit(d, g, flat, name, page, data, b, t, Next(t, SetDirty(b)));
    } else if Overwritable(page, |data|) && CanInsert(s, k) {
      WriteInserts(s, name, page, |data|);
      WriteKeptOnHit(d, g, flat, name, page, data, s.free[0], t, Next(t, SetDirty(s.free[0])));
    } else {
      WriteKeptOnMiss(d, g, flat, name, page, data);
    }
  }

  lemma WholeBlock(d: Disk, g: Addresses, e: Disk, b: nat, page: nat, data: seq<Page>)
    requires Sane(g, |d.cache.slots|) && page % 8 == 0 && |data| == 8 && b < |d.cache.slots|
    requires e.ssd == Put(d.ssd, i => g.userLba(b, page, i), data)
    ensures forall j: nat :: j < 8 ==> SsdAt(e, g, b, j) == data[j]
  {
    forall j: nat | j < 8 ensures SsdAt(e, g, b, j) == data[j] {
      SsdAfterWrite(d, g, e, b, page, data, b, j);
    }
  }

  /** A block that a write hashes without fetching it was inserted by an overwrite of exactly its 8
      pages, and holds all of them when the request ends. */
  lemma InsertWithoutFetch(d: Disk, g: Addresses, name: Name, page: nat, data: seq<Page>, b: nat)
    requires Inv(d.cache) && Sane(g, |d.cache.slots|) && CheckPio(page, |data|)
    requires b !in d.cache.hashed && b in DoWrite(d, g, name, page, data).cache.hashed
    ensures Overwritable(page, |data|) && |data| == 8 && page % 8 == 0
    ensures var e := DoWrite(d, g, name, page, data);
      && Holds(e.cache, KeyOf(name, page), b)
      && forall j: nat :: j < 8 ==> SsdAt(e, g, b, j) == data[j]
  {
    var s, k := d.cache, KeyOf(name, page);
    if Hashed(s, k) {
      WriteFinds(s, name, page, |data|, Find(s, k).value);
    } else if Overwritable(page, |data|) && CanInsert(s, k) {
      WriteInserts(s, name, page, |data|);
      WholeBlock(d, g, DoWrite(d, g, name, page, data), b, page, data);
    } else {
      WriteMisses(s, name, page, |data|);
    }
  }

  // ---------- the worker's steps ----------

  /** The worker's transfers read and write whole blocks. */
  lemma SsdAfterMove(d: Disk, g: Addresses, e: Disk, b: nat, data: seq<Page>, c: nat, j: nat)
    requires Sane(g, |d.cache.slots|) && |data| <= 8 && j < 8 && b < |d.cache.slots| && c < |d.cache.slots|
    requires e.ssd == Put(d.ssd, i => g.moveLba(b, i), data)
    ensures SsdAt(e, g, c, j) == if c == b && j < |data| then data[j] else SsdAt(d, g, c, j)
  {
    var at := (i: nat) => g.moveLba(b, i);
    if c == b && j < |data| {
      PutGet(d.ssd, at, data, j);
    } else {
      PutOther(d.ssd, at, data, g.moveLba(c, j));
    }
  }

  lemma OriginAfterMove(d: Disk, g: Addresses, e: Disk, k: Key, data: seq<Page>, q: Key, j: nat)
    requires Sane(g, |d.cache.slots|) && |data| <= 8 && j < 8 && Used(g, k) && Used(g, q)
    requires e.origin == Put(d.origin, i => (k.name, g.moveOff(k.page, i)), data)
    ensures OriginAt(e, g, q, j) == if q == k && j < |data| then data[j] else OriginAt(d, g, q, j)
  {
    var at := (i: nat) => (k.name, g.moveOff(k.page, i));
    DistinctPlaces(g, |d.cache.slots|, k, k);
    if q.name == k.name { DistinctPlaces(g, |d.cache.slots|, k, q); }
    if q == k && j < |data| {
      PutGet(d.origin, at, data, j);
    } else {
      PutOther(d.origin, at, data, (q.name, g.moveOff(q.page, j)));
    }
  }

  lemma OriginKept(d: Disk, g: Addresses, flat: Flat, e: Disk)
    requires OriginTrue(d, g, flat) && e.origin == d.origin
    requires forall k: Key :: Used(g, k) && OriginCurrent(e.cache, k) ==> OriginCurrent(d.cache, k)
    ensures OriginTrue(e, g, flat)
  {
    forall k: Key, j: nat | Used(g, k) && j < 8 && OriginCurrent(e.cache, k)
      ensures OriginAt(e, g, k, j) == Truth(flat, k, j)
    {
      assert OriginAt(d, g, k, j) == Truth(flat, k, j);
      assert OriginAt(e, g, k, j) == OriginAt(d, g, k, j);
    }
  }

  lemma CacheKept(d: Disk, g: Addresses, flat: Flat, e: Disk)
    requires CacheTrue(d, g, flat) && e.ssd == d.ssd && |e.cache.slots| == |d.cache.slots|
    requires e.cache.hashed <= d.cache.hashed
    requires forall b: nat :: b in e.cache.hashed && b < |e.cache.slots| ==>
      e.cache.slots[b].key == d.cache.slots[b].key
    ensures CacheTrue(e, g, flat)
  {
    forall b: nat, j: nat | b in e.cache.hashed && b < |e.cache.slots| && j < 8
      ensures SsdAt(e, g, b, j) == Truth(flat, e.cache.slots[b].key, j)
    {
      assert SsdAt(d, g, b, j) == Truth(flat, d.cache.slots[b].key, j);
    }
  }

  /** The worker reserves a block, or gives its attempt up. */
  lemma AttemptFrame(s: State)
    requires Inv(s) && s.worker.Trying?
    ensures var t := Next(s, Attempt);
      && t.hashed == s.hashed && |t.slots| == |s.slots| && t.queue == s.queue
      && (t.worker.Moving? ==> t.worker.stage.Reserved?)
      && (forall b: nat :: b in s.hashed ==>
            b < |s.slots| && t.slots[b].key == s.slots[b].key && (Settled(t, b) <==> Settled(s, b)))
      && (t.worker.Moving? ==> !t.slots[t.worker.block].dirty)
  {
    InvInRange(s);
    if s.free != [] { assert s.free[0] in s.free; }
    if s.clean != [] { assert s.clean[0] in s.clean; }
    if s.dirty != [] { assert s.dirty[0] in s.dirty; }
  }

  lemma AttemptKept(d: Disk, g: Addresses, flat: Flat)
    requires Coherent(d, g, flat) && d.cache.worker.Trying?
    ensures Coherent(d.(cache := Next(d.cache, Attempt)), g, flat)
  {
    var s, t := d.cache, Next(d.cache, Attempt);
    var e := d.(cache := t);
    AttemptFrame(s);
    CacheKept(d, g, flat, e);
    forall k: Key, b: nat | OriginCurrent(t, k) && Holds(s, k, b) ensures Settled(s, b) {
      assert Holds(t, k, b);
    }
    OriginKept(d, g, flat, e);
  }

  lemma LoadKept(d: Disk, g: Addresses, flat: Flat, ok: bool, left: seq<Page>)
    requires Coherent(d, g, flat) && Allowed(d, g, Work(Load(ok), left))
    ensures Coherent(DoWork(d, g, Load(ok), left), g, flat)
  {
    var s := d.cache;
    var e, w := DoWork(d, g, Load(ok), left), s.worker;
    CacheKept(d, g, flat, e);
    assert forall k, b: nat :: Holds(e.cache, k, b) <==> Holds(s, k, b);
    OriginKept(d, g, flat, e);
    if ok {
      if w.kind.Promotion? {
        assert w.key == s.queue[0] && Used(g, w.key) && !Hashed(s, s.queue[0]);
        assert OriginCurrent(s, w.key);
        forall j: nat | j < 8 ensures e.buf[j] == Truth(flat, w.key, j) {
          assert e.buf[j] == OriginAt(d, g, w.key, j);
        }
      } else {
        forall j: nat | j < 8 ensures e.buf[j] == Truth(flat, s.slots[w.block].key, j) {
          assert e.buf[j] == SsdAt(d, g, w.block, j);
        }
      }
    }
  }

  /** New SSD contents in block `b`, which is not hashed, or the old ones again. */
  lemma SsdOverwritten(d: Disk, g: Addresses, flat: Flat, e: Disk, b: nat, data: seq<Page>)
    requires CacheTrue(d, g, flat) && Sane(g, |d.cache.slots|) && |data| <= 8 && b < |d.cache.slots|
    requires e.ssd == Put(d.ssd, i => g.moveLba(b, i), data)
    requires e.cache.hashed == d.cache.hashed && e.cache.slots == d.cache.slots
    requires b in d.cache.hashed ==> forall j: nat :: j < |data| ==> data[j] == SsdAt(d, g, b, j)
    ensures CacheTrue(e, g, flat)
  {
    forall c: nat, j: nat | c in e.cache.hashed && c < |e.cache.slots| && j < 8
      ensures SsdAt(e, g, c, j) == Truth(flat, e.cache.slots[c].key, j)
    {
      assert SsdAt(d, g, c, j) == Truth(flat, d.cache.slots[c].key, j);
      SsdAfterMove(d, g, e, b, data, c, j);
    }
  }

  lemma StorePromotionKept(d: Disk, g: Addresses, flat: Flat, ok: bool, left: seq<Page>)
    requires Coherent(d, g, flat) && Allowed(d, g, Work(Store(ok), left)) && d.cache.worker.kind.Promotion?
    ensures Coherent(DoWork(d, g, Store(ok), left), g, flat)
  {
    var s, w, e := d.cache, d.cache.worker, DoWork(d, g, Store(ok), left);
    var data := if ok then d.buf else left;
    assert forall k, b: nat :: Holds(e.cache, k, b) <==> Holds(s, k, b);
    SsdOverwritten(d, g, flat, e, w.block, data);
    OriginKept(d, g, flat, e);
    if ok {
      forall j: nat | j < 8 ensures SsdAt(e, g, w.block, j) == Truth(flat, w.key, j) {
        SsdAfterMove(d, g, e, w.block, data, w.block, j);
      }
    }
  }

  lemma StoreWritebackKept(d: Disk, g: Addresses, flat: Flat, ok: bool, left: seq<Page>)
    requires Coherent(d, g, flat) && Allowed(d, g, Work(Store(ok), left)) && d.cache.worker.kind.Writeback?
    ensures Coherent(DoWork(d, g, Store(ok), left), g, flat)
  {
    var s, w, e := d.cache, d.cache.worker, DoWork(d, g, Store(ok), left);
    var k := s.slots[w.block].key;
    assert Holds(s, k, w.block) && Used(g, k);
    assert forall q, b: nat :: Holds(e.cache, q, b) <==> Holds(s, q, b);
    CacheKept(d, g, flat, e);
    forall q: Key, j: nat | Used(g, q) && j < 8 && OriginCurrent(e.cache, q)
      ensures OriginAt(e, g, q, j) == Truth(flat, q, j)
    {
      OriginAfterMove(d, g, e, k, if ok then d.buf else left, q, j);
      if q == k {
        assert Settled(e.cache, w.block);
      } else {
        forall b: nat | Holds(s, q, b) ensures Settled(s, b) {
          assert Holds(e.cache, q, b);
        }
        assert OriginAt(d, g, q, j) == Truth(flat, q, j);
      }
    }
  }

  lemma TrimSubmitted(d: Disk, g: Addresses, flat: Flat, left: seq<Page>)
    requires Coherent(d, g, flat) && Allowed(d, g, Work(Trim, left))
    ensures Coherent(DoWork(d, g, Trim, left), g, flat)
  {
    var s, e := d.cache, DoWork(d, g, Trim, left);
    assert forall k, b: nat :: Holds(e.cache, k, b) <==> Holds(s, k, b);
    CacheKept(d, g, flat, e);
    OriginKept(d, g, flat, e);
  }

  lemma TrimKept(d: Disk, g: Addresses, flat: Flat, left: seq<Page>, done: bool)
    requires Coherent(d, g, flat) && Allowed(d, g, TrimActs(left, done))
    ensures Coherent(DoTrim(d, g, left, done), g, flat)
  {
    var e := DoTrim(d, g, left, done);
    SsdOverwritten(d, g, flat, e, 0, left);
    OriginKept(d, g, flat, e);
    if d.cache.worker.Moving? {
      forall j: nat | j < 8 && d.cache.worker.kind.Promotion? && d.cache.worker.stage == Moved(true)
        ensures SsdAt(e, g, d.cache.worker.block, j) == SsdAt(d, g, d.cache.worker.block, j)
      {
        SsdAfterMove(d, g, e, 0, left, d.cache.worker.block, j);
      }
    }
  }

  lemma CompletePromotionKept(d: Disk, g: Addresses, flat: Flat)
    requires Coherent(d, g, flat) && Enabled(d.cache, Complete) && d.cache.worker.kind.Promotion?
    ensures Coherent(d.(cache := Next(d.cache, Complete)), g, flat)
  {
    var s, w := d.cache, d.cache.worker;
    var t := Next(s, Complete);
    var e := d.(cache := t);
    assert w.key == s.queue[0] && Used(g, w.key) && !Hashed(s, s.queue[0]);
    forall b: nat, j: nat | b in t.hashed && b < |t.slots| && j < 8
      ensures SsdAt(e, g, b, j) == Truth(flat, t.slots[b].key, j)
    {
      assert SsdAt(e, g, b, j) == SsdAt(d, g, b, j);
      if b in s.hashed { assert SsdAt(d, g, b, j) == Truth(flat, s.slots[b].key, j); }
    }
    forall k: Key, b: nat | OriginCurrent(t, k) && Holds(s, k, b) ensures Settled(s, b) {
      assert Holds(t, k, b);
    }
    OriginKept(d, g, flat, e);
  }

  lemma CompleteDemotionKept(d: Disk, g: Addresses, flat: Flat)
    requires Coherent(d, g, flat) && Enabled(d.cache, Complete) && d.cache.worker.kind.Demotion?
    ensures Coherent(d.(cache := Next(d.cache, Complete)), g, flat)
  {
    var s, b := d.cache, d.cache.worker.block;
    var t := Next(s, Complete);
    var e := d.(cache := t);
    assert Holds(s, s.slots[b].key, b);
    DemotionIs(s, b);
    CacheKept(d, g, flat, e);
    forall k: Key, c: nat | OriginCurrent(t, k) && Holds(s, k, c) ensures Settled(s, c) {
      if c != b { assert Holds(t, k, c); }
    }
    OriginKept(d, g, flat, e);
  }

  lemma CompleteWritebackKept(d: Disk, g: Addresses, flat: Flat)
    requires Coherent(d, g, flat) && Enabled(d.cache, Complete) && d.cache.worker.kind.Writeback?
    requires d.cache.worker.stage == Moved(false) ==> d.cache.slots[d.cache.worker.block].dirty
    ensures Coherent(d.(cache := Next(d.cache, Complete)), g, flat)
  {
    var s := d.cache;
    var t := Next(s, Complete);
    var e := d.(cache := t);
    CacheKept(d, g, flat, e);
    forall k: Key, b: nat | OriginCurrent(t, k) && Holds(s, k, b) ensures Settled(s, b) {
      assert Holds(t, k, b);
    }
    OriginKept(d, g, flat, e);
  }

  lemma WorkKept(d: Disk, g: Addresses, flat: Flat, a: Action, left: seq<Page>)
    requires Coherent(d, g, flat) && Allowed(d, g, Work(a, left))
    ensures Coherent(DoWork(d, g, a, left), g, flat)
  {
    match a {
      case Peek => ViewKept(d, g, flat, Next(d.cache, a));
      case RemoveWork => ViewKept(d, g, flat, Next(d.cache, a));
      case Attempt => AttemptKept(d, g, flat);
      case Load(ok) => LoadKept(d, g, flat, ok, left);
      case Store(ok) =>
        if d.cache.worker.kind.Promotion? { StorePromotionKept(d, g, flat, ok, left); }
        else { StoreWritebackKept(d, g, flat, ok, left); }
      case Trim => TrimSubmitted(d, g, flat, left);
      case Complete =>
        match d.cache.worker.kind {
          case Promotion => CompletePromotionKept(d, g, flat);
          case Demotion => CompleteDemotionKept(d, g, flat);
          case Writeback => CompleteWritebackKept(d, g, flat);
        }
      case _ =>
    }
  }

  lemma ReadKept(d: Disk, g: Addresses, flat: Flat, k: Key)
    requires Coherent(d, g, flat) && Used(g, k)
    ensures Coherent(d.(cache := Next(d.cache, Lookup(k))), g, flat)
  {
    LookupKeepsUsed(g, d.cache, Lookup(k), k);
    ViewKept(d, g, flat, Next(d.cache, Lookup(k)));
  }

  /** A discard of a block that owes nothing to its file. */
  lemma DiscardKept(d: Disk, g: Addresses, flat: Flat, k: Key)
    requires Coherent(d, g, flat) && Enabled(d.cache, Remove(k)) && OriginCurrent(d.cache, k)
    ensures Coherent(d.(cache := Next(d.cache, Remove(k))), g, flat)
  {
    var s, t := d.cache, Next(d.cache, Remove(k));
    if Hashed(s, k) {
      var b, e := Find(s, k).value, d.(cache := t);
      RemoveIs(s, k, b);
      CacheKept(d, g, flat, e);
      forall q: Key, c: nat | OriginCurrent(t, q) && Holds(s, q, c) ensures Settled(s, c) {
        if c != b { assert Holds(t, q, c); }
      }
      OriginKept(d, g, flat, e);
    }
  }

  /** One event: the disk and flat storage show the same, and stay in agreement. */
  lemma EventRefinesFlat(d: Disk, g: Addresses, flat: Flat, e: Event)
    requires Coherent(d, g, flat) && Allowed(d, g, e)
    ensures Output(d, g, e) == FlatOutput(flat, e)
    ensures Coherent(Apply(d, g, e), g, FlatApply(flat, e))
  {
    match e
    case Read(name, page, cnt) =>
      AcceptedExactly(page, cnt);
      if CheckPio(page, cnt) {
        ReadsTruth(d, g, flat, name, page, cnt);
        ReadKept(d, g, flat, KeyOf(name, page));
      }
    case Write(name, page, data) =>
      AcceptedExactly(page, |data|);
      if CheckPio(page, |data|) { WriteKept(d, g, flat, name, page, data); }
    case Discard(name, page, cnt) => if CheckPio(page, cnt) { DiscardKept(d, g, flat, KeyOf(name, page)); }
    case Work(a, left) => WorkKept(d, g, flat, a, left);
    case TrimActs(left, done) => TrimKept(d, g, flat, left, done);
  }

  // ---------- whole runs ----------

  /** Every event of the run could happen when its turn came. */
  ghost predicate AllPossible(d: Disk, g: Addresses, es: seq<Event>)
    requires Inv(d.cache)
    decreases |es|, 0
  {
    es != [] ==>
      var before := es[..|es| - 1];
      AllPossible(d, g, before) && Possible(Ending(d, g, before), es[|es| - 1])
  }

  ghost function Ending(d: Disk, g: Addresses, es: seq<Event>): (e: Disk)
    requires Inv(d.cache) && AllPossible(d, g, es)
    ensures Inv(e.cache)
    decreases |es|, 1
  {
    if es == [] then d else Apply(Ending(d, g, es[..|es| - 1]), g, es[|es| - 1])
  }

  ghost predicate AllAllowed(d: Disk, g: Addresses, es: seq<Event>)
    requires Inv(d.cache) && AllPossible(d, g, es)
  {
    es != [] ==>
      var before := es[..|es| - 1];
      AllAllowed(d, g, before) && Allowed(Ending(d, g, before), g, es[|es| - 1])
  }

  ghost function Outputs(d: Disk, g: Addresses, es: seq<Event>): seq<seq<Page>>
    requires Inv(d.cache) && AllPossible(d, g, es)
  {
    if es == [] then []
    else
      var before := es[..|es| - 1];
      Outputs(d, g, before) + [Output(Ending(d, g, before), g, es[|es| - 1])]
  }

  ghost function FlatAfter(flat: Flat, es: seq<Event>): Flat {
    if es == [] then flat else FlatApply(FlatAfter(flat, es[..|es| - 1]), es[|es| - 1])
  }

  ghost function FlatOutputs(flat: Flat, es: seq<Event>): seq<seq<Page>> {
    if es == [] then []
    else
      var before := es[..|es| - 1];
      FlatOutputs(flat, before) + [FlatOutput(FlatAfter(flat, before), es[|es| - 1])]
  }

  lemma {:induction false} PrefixPossible(d: Disk, g: Addresses, es: seq<Event>, i: nat)
    requires Inv(d.cache) && AllPossible(d, g, es) && i <= |es|
    ensures AllPossible(d, g, es[..i])
    ensures i < |es| ==> Possible(Ending(d, g, es[..i]), es[i])
  {
    if i < |es| {
      var before := es[..|es| - 1];
      PrefixPossible(d, g, before, i);
      assert before[..i] == es[..i];
      if i == |es| - 1 { assert es[..i] == before; }
    } else {
      assert es[..i] == es;
    }
  }

  lemma NextPrefix(d: Disk, g: Addresses, es: seq<Event>, i: nat)
    requires Inv(d.cache) && AllPossible(d, g, es) && i < |es|
    ensures AllPossible(d, g, es[..i]) && AllPossible(d, g, es[..i + 1])
    ensures Possible(Ending(d, g, es[..i]), es[i])
    ensures Ending(d, g, es[..i + 1]) == Apply(Ending(d, g, es[..i]), g, es[i])
    ensures Outputs(d, g, es[..i + 1]) == Outputs(d, g, es[..i]) + [Output(Ending(d, g, es[..i]), g, es[i])]
  {
    PrefixPossible(d, g, es, i);
    PrefixPossible(d, g, es, i + 1);
    assert es[..i + 1][..i] == es[..i];
  }

  /** Every allowed run shows what flat storage shows, and ends in agreement with it. */
  lemma {:induction false} RunRefinesFlat(d: Disk, g: Addresses, flat: Flat, es: seq<Event>)
    requires Coherent(d, g, flat) && AllPossible(d, g, es) && AllAllowed(d, g, es)
    ensures Outputs(d, g, es) == FlatOutputs(flat, es)
    ensures Coherent(Ending(d, g, es), g, FlatAfter(flat, es))
  {
    if es != [] {
      var before, e := es[..|es| - 1], es[|es| - 1];
      RunRefinesFlat(d, g, flat, before);
      EventRefinesFlat(Ending(d, g, before), g, FlatAfter(flat, before), e);
    }
  }

  /** A fresh cache of `n` blocks over any SSD contents and any files. */
  ghost function Fresh(n: nat, ssd: map<nat, Page>, origin: map<(Name, nat), Page>): (d: Disk)
    requires n > 0
    ensures Inv(d.cache)
  {
    Disk(Start(n), ssd, origin, [], 0)
  }

  /** The addresses that the code computes for a device of the given block size, when users ask for the
      file blocks `used`. */
  function CodeAddresses(blockSize: nat, ghost used: iset<Key>): Addresses
    requires blockSize > 0
  {
    Addresses(
      (c, p, i) => UserLba(blockSize, c, p, i),
      (c, j) => MoveLba(blockSize, c, j),
      (p, i) => UserOffset(p, i),
      (c, j) => MoveOffset(c, j),
      used)
  }

  /** No two blocks in use of one file have numbers that agree modulo 2^17. */
  ghost predicate NoAlias(used: iset<Key>) {
    forall p: Key, q: Key :: p in used && q in used && p.name == q.name && p.page % BLOCKS == q.page % BLOCKS ==>
      p.page == q.page
  }

  lemma MoveLbasDiffer(blockSize: nat, c: nat, j: nat, d: nat, k: nat)
    requires 0 < blockSize <= PAGE_SIZE && c < CACHE_BLOCK_NUMBER && d < CACHE_BLOCK_NUMBER && j < 8 && k < 8
    requires MoveLba(blockSize, c, j) == MoveLba(blockSize, d, k)
    ensures c == d && j == k
  {
    if (c, j) != (d, k) { LbaDisjoint(blockSize, c, j, d, k); }
  }

  lemma MoveOffsetsDiffer(used: iset<Key>, p: Key, j: nat, q: Key, k: nat)
    requires NoAlias(used) && p in used && q in used && p.name == q.name && j < 8 && k < 8
    requires MoveOffset(p.page, j) == MoveOffset(q.page, k)
    ensures p.page == q.page && j == k
  {
    BlockOffset(p.page);
    BlockOffset(q.page);
  }

  lemma CodeAddressesSane(blockSize: nat, used: iset<Key>, n: nat)
    requires 0 < blockSize <= PAGE_SIZE && n <= CACHE_BLOCK_NUMBER && NoAlias(used)
    ensures Sane(CodeAddresses(blockSize, used), n)
  {
    var g := CodeAddresses(blockSize, used);
    forall c: nat, p: nat, i: nat | c < n && p % 8 + i < 8
      ensures g.userLba(c, p, i) == g.moveLba(c, p % 8 + i)
    {
      LbaAgree(blockSize, c, p, i);
    }
    forall p: nat, i: nat | p % 8 + i < 8 ensures g.userOff(p, i) == g.moveOff(p / 8, p % 8 + i) {
      OffsetAgree(p, i);
    }
    forall c: nat, j: nat, d: nat, k: nat
      | c < n && d < n && j < 8 && k < 8 && g.moveLba(c, j) == g.moveLba(d, k)
      ensures c == d && j == k
    {
      MoveLbasDiffer(blockSize, c, j, d, k);
    }
    forall p: Key, j: nat, q: Key, k: nat
      | SamePlace(g, p, j, q, k)
      ensures p.page == q.page && j == k
    {
      MoveOffsetsDiffer(used, p, j, q, k);
    }
  }

  /** Flat storage has, in the blocks that users ask for, what the files have. */
  ghost predicate SameContents(used: iset<Key>, origin: map<(Name, nat), Page>, flat: Flat) {
    forall name: Name, page: nat :: KeyOf(name, page) in used ==>
      Get(flat, (name, page)) == Get(origin, (name, UserOffset(page, 0)))
  }

  lemma FreshCoherent(blockSize: nat, used: iset<Key>, n: nat, ssd: map<nat, Page>,
                      origin: map<(Name, nat), Page>, flat: Flat)
    requires 0 < blockSize <= PAGE_SIZE && NoAlias(used) && 0 < n <= CACHE_BLOCK_NUMBER
    requires SameContents(used, origin, flat)
    ensures Coherent(Fresh(n, ssd, origin), CodeAddresses(blockSize, used), flat)
  {
    var g, d := CodeAddresses(blockSize, used), Fresh(n, ssd, origin);
    CodeAddressesSane(blockSize, used, n);
    forall k: Key, j: nat | Used(g, k) && j < 8 ensures OriginAt(d, g, k, j) == Truth(flat, k, j) {
      OffsetAgree(8 * k.page + j, 0);
      assert KeyOf(k.name, 8 * k.page + j) == k;
      assert Get(flat, (k.name, 8 * k.page + j)) == Get(origin, (k.name, UserOffset(8 * k.page + j, 0)));
    }
  }

  /** Flat storage: whatever the files held at first, over any allowed run of requests, discards,
      worker's steps and trims, every read returns what was last written to its pages. */
  lemma CacheIsFlatStorage(blockSize: nat, used: iset<Key>, n: nat, ssd: map<nat, Page>,
                           origin: map<(Name, nat), Page>, flat: Flat, es: seq<Event>)
    requires 0 < blockSize <= PAGE_SIZE && NoAlias(used) && 0 < n <= CACHE_BLOCK_NUMBER
    requires SameContents(used, origin, flat)
    requires AllPossible(Fresh(n, ssd, origin), CodeAddresses(blockSize, used), es)
    requires AllAllowed(Fresh(n, ssd, origin), CodeAddresses(blockSize, used), es)
    ensures Outputs(Fresh(n, ssd, origin), CodeAddresses(blockSize, used), es) == FlatOutputs(flat, es)
  {
    FreshCoherent(blockSize, used, n, ssd, origin, flat);
    RunRefinesFlat(Fresh(n, ssd, origin), CodeAddresses(blockSize, used), flat, es);
  }
}
