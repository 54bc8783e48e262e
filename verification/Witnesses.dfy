/** Runs from an empty cache that meet every case in which it is not flat storage, or wastes work, so
    that none of those cases is idle. They are given for caches of every size. */
module Witnesses {
  import opened Sequences
  import opened Works
  import opened CacheMachine
  import opened CacheInvariant
  import opened CacheRuns
  import opened Geometry
  import opened FlatStorage
  import opened Coherence
  import opened Limits
  import opened Discards
  import opened Rounds
  import opened Scripts

  const A: Name := [97]
  const B: Name := [98]
  const KA := Key(A, 0)
  const KB := Key(B, 0)

  ghost function G(): Addresses {
    CodeAddresses(512, iset k: Key | k.page < BLOCKS)
  }

  /** An empty cache of `n` blocks over empty files. */
  ghost function Empty(n: nat): (d: Disk)
    requires n > 0
    ensures Inv(d.cache)
  {
    Fresh(n, map[], map[])
  }

  lemma EmptyCoherent(n: nat)
    requires 0 < n <= CACHE_BLOCK_NUMBER
    ensures Coherent(Empty(n), G(), map[])
  {
    FreshCoherent(512, G().used, n, map[], map[], map[]);
  }

  /** An allowed run from the empty cache ends in agreement with flat storage. */
  lemma LeadsCoherent(n: nat, es: seq<Event>, s: State)
    requires 0 < n <= CACHE_BLOCK_NUMBER && Leads(G(), Empty(n), es, s)
    ensures Coherent(Ending(Empty(n), G(), es), G(), FlatAfter(map[], es))
  {
    EmptyCoherent(n);
    RunRefinesFlat(Empty(n), G(), map[], es);
  }

  // ---------- filling a cache ----------

  /** The first `c` blocks are clean and the next `m` dirty, each holding the key of its number. */
  ghost predicate Filled(s: State, n: nat, c: nat, m: nat) {
    && Resting(s) && |s.slots| == n && |s.clean| == c && |s.dirty| == m && |s.free| == n - c - m
    && (forall i :: 0 <= i < c ==> s.clean[i] == i)
    && (forall i :: 0 <= i < m ==> s.dirty[i] == c + i)
    && (forall i :: 0 <= i < |s.free| ==> s.free[i] == c + m + i)
    && (forall i: nat :: i < c + m && i < n ==> s.slots[i].key == Key(A, i))
  }

  /** The hashed blocks of such a cache are the first ones. */
  lemma FilledHashed(s: State, n: nat, c: nat, m: nat, b: nat)
    requires Filled(s, n, c, m) && b in s.hashed
    ensures b < n && b < c + m && s.slots[b].key == Key(A, b)
  {
    if s.slots[b].dirty { assert b in s.dirty; } else { assert b in s.clean; }
  }

  lemma NotYetHashed(s: State, n: nat, c: nat, m: nat, k: Key)
    requires Filled(s, n, c, m) && (k.name != A || k.page >= c + m)
    ensures !Hashed(s, k)
  {
    if Hashed(s, k) { FilledHashed(s, n, c, m, Find(s, k).value); }
  }

  lemma FetchFills(s: State, n: nat, c: nat)
    requires Filled(s, n, c, 0) && c < n
    ensures s.free != [] && s.free[0] == c && !Hashed(s, Key(A, c))
    ensures Inv(Fetch(s, Key(A, c), 7)) ==> Filled(Fetch(s, Key(A, c), 7), n, c + 1, 0)
  {
    NotYetHashed(s, n, c, 0, Key(A, c));
  }

  /** Reads of the first `c` blocks of a file, each followed by its promotion. */
  lemma {:induction false} FillClean(n: nat, c: nat) returns (es: seq<Event>, s: State)
    requires c <= n <= CACHE_BLOCK_NUMBER && n > 0
    ensures Leads(G(), Empty(n), es, s) && Filled(s, n, c, 0) && FlatAfter(map[], es) == map[]
  {
    if c == 0 {
      es, s := [], Start(n);
    } else {
      var before, u := FillClean(n, c - 1);
      FetchFills(u, n, c - 1);
      es := FetchRun(G(), Empty(n), before, u, Key(A, c - 1), 7, KA, map[]);
      s := Fetch(u, Key(A, c - 1), 7);
    }
  }

  /** Block `b` inserted for `k` and marked dirty. */
  ghost function Inserted(s: State, k: Key): State
    requires s.free != [] && s.free[0] < |s.slots|
  {
    var b := s.free[0];
    s.(slots := s.slots[b := Slot(k, false, true, true)], free := s.free[1..], dirty := s.dirty + [b],
       hashed := s.hashed + {b})
  }

  lemma InsertGoes(s: State, k: Key)
    requires Resting(s) && s.free != [] && s.free[0] < |s.slots| && !Hashed(s, k)
    ensures Goes(s, LookupInsert(k), Inserted(s, k)) && Holds(Inserted(s, k), k, s.free[0])
  {
    InvInRange(s);
  }

  lemma MarkGoes(s: State, k: Key, t: State, b: nat)
    requires Resting(s) && s.free != [] && s.free[0] < |s.slots| && t == Inserted(s, k) && b == s.free[0]
    ensures Goes(t, SetDirty(b), t)
  {
    InvInRange(s);
    assert b in s.free && b !in s.dirty;
    WithoutLast(s.dirty, b);
  }

  /** A write of a whole block that is not cached, into a cache that has room. */
  lemma InsertRun(d: Disk, es: seq<Event>, s: State, i: nat, data: seq<Page>) returns (es': seq<Event>)
    requires Leads(G(), d, es, s) && Resting(s) && s.free != [] && s.free[0] < |s.slots|
    requires !Hashed(s, Key(A, i)) && Used(G(), Key(A, i)) && |data| == 8
    ensures es' == es + [Event.Write(A, 8 * i, data)] && Leads(G(), d, es', Inserted(s, Key(A, i)))
    ensures FlatAfter(map[], es') == FlatWrite(FlatAfter(map[], es), A, 8 * i, data)
  {
    es' := es + [Event.Write(A, 8 * i, data)];
    assert es'[..|es|] == es;
    WrittenInserted(Ending(d, G(), es), G(), i, data);
  }

  lemma WrittenInserted(d: Disk, g: Addresses, i: nat, data: seq<Page>)
    requires Resting(d.cache) && d.cache.free != [] && d.cache.free[0] < |d.cache.slots|
    requires !Hashed(d.cache, Key(A, i)) && |data| == 8
    ensures Used(g, Key(A, i)) ==> Allowed(d, g, Event.Write(A, 8 * i, data))
    ensures KeyOf(A, 8 * i) == Key(A, i) && CheckPio(8 * i, 8)
    ensures var e := DoWrite(d, g, A, 8 * i, data); e.cache == Inserted(d.cache, Key(A, i)) && e.origin == d.origin
  {
    InsertGoes(d.cache, Key(A, i));
    MarkGoes(d.cache, Key(A, i), Inserted(d.cache, Key(A, i)), d.cache.free[0]);
    FindIs(WriteLookup(d.cache, A, 8 * i, 8), Key(A, i), d.cache.free[0]);
  }

  lemma InsertFills(s: State, n: nat, c: nat, m: nat, at: nat)
    requires Filled(s, n, c, m) && at == c + m < n
    ensures s.free != [] && s.free[0] == at && !Hashed(s, Key(A, at))
    ensures Inv(Inserted(s, Key(A, at))) ==> Filled(Inserted(s, Key(A, at)), n, c, m + 1)
  {
    NotYetHashed(s, n, c, m, Key(A, at));
  }

  /** Flat storage has `data` in block `i` of the file. */
  ghost predicate Wrote(flat: Flat, i: nat, data: seq<Page>) {
    |data| == 8 && forall j: nat :: j < 8 ==> Truth(flat, Key(A, i), j) == data[j]
  }

  lemma WriteWrote(flat: Flat, i: nat, at: nat, data: seq<Page>)
    requires |data| == 8 && (i == at || Wrote(flat, i, data))
    ensures Wrote(FlatWrite(flat, A, 8 * at, data), i, data)
  {
    forall j: nat | j < 8 ensures Truth(FlatWrite(flat, A, 8 * at, data), Key(A, i), j) == data[j] {
      TruthAfterWrite(flat, A, 8 * at, data, Key(A, i), j);
    }
  }

  lemma FillOne(d: Disk, es: seq<Event>, u: State, n: nat, c: nat, m: nat, at: nat, data: seq<Page>)
    returns (es': seq<Event>, s: State)
    requires Leads(G(), d, es, u) && Filled(u, n, c, m) && at == c + m < n <= CACHE_BLOCK_NUMBER && |data| == 8
    ensures Leads(G(), d, es', s) && Filled(s, n, c, m + 1)
    ensures FlatAfter(map[], es') == FlatWrite(FlatAfter(map[], es), A, 8 * at, data)
  {
    InsertFills(u, n, c, m, at);
    es' := InsertRun(d, es, u, at, data);
    s := Inserted(u, Key(A, at));
  }

  /** After those reads, writes of the next `m` blocks. */
  lemma {:induction false} FillDirty(n: nat, c: nat, m: nat, data: seq<Page>) returns (es: seq<Event>, s: State)
    requires c + m <= n <= CACHE_BLOCK_NUMBER && n > 0 && |data| == 8
    ensures Leads(G(), Empty(n), es, s) && Filled(s, n, c, m)
    ensures m > 0 ==> Wrote(FlatAfter(map[], es), c, data)
    decreases m
  {
    if m == 0 {
      es, s := FillClean(n, c);
    } else {
      var before, u := FillDirty(n, c, m - 1, data);
      var at := c + (m - 1);
      es, s := FillOne(Empty(n), before, u, n, c, m - 1, at, data);
      WriteWrote(FlatAfter(map[], before), c, at, data);
    }
  }

  // ---------- a write that the worker loses ----------

  lemma HazardLoses(d: Disk, g: Addresses, flat: Flat, name: Name, page: nat, data: seq<Page>, i: nat)
    requires Coherent(d, g, flat) && Used(g, KeyOf(name, page)) && CheckPio(page, |data|) && i < |data|
    requires Hazard(d.cache, KeyOf(name, page)) && data[i] != Truth(flat, KeyOf(name, page), page % 8 + i)
    ensures PageAt(Land(DoWrite(d, g, name, page, data), g), g, name, page + i) != data[i]
  {
    WriteSurvivesExactly(d, g, flat, name, page, data, i);
  }

  /** A miss, and a write to the same block after the worker has read the file: once the block has landed,
      a read returns the page from before the write. */
  lemma HazardHappens(n: nat, name: Name, page: nat, data: seq<Page>, i: nat) returns (es: seq<Event>, d: Disk)
    requires 0 < n <= CACHE_BLOCK_NUMBER
    requires KeyOf(name, page) == KA && CheckPio(page, |data|) && i < |data| && data[i] != BLANK
    ensures AllPossible(Empty(n), G(), es) && AllAllowed(Empty(n), G(), es) && d == Ending(Empty(n), G(), es)
    ensures Coherent(d, G(), map[]) && Hazard(d.cache, KA) && d.cache.worker.kind.Promotion?
    ensures PageAt(Land(DoWrite(d, G(), name, page, data), G()), G(), name, page + i) != data[i]
  {
    es := FetchRun(G(), Empty(n), [], Start(n), KA, 4, KA, map[]);
    d := Ending(Empty(n), G(), es);
    LeadsCoherent(n, es, Fetch(Start(n), KA, 4));
    HazardLoses(d, G(), map[], name, page, data, i);
  }

  /** A full cache whose block 0 is clean and held by `KA`. */
  lemma Full(n: nat) returns (es: seq<Event>, s: State)
    requires 0 < n <= CACHE_BLOCK_NUMBER
    ensures Leads(G(), Empty(n), es, s) && FlatAfter(map[], es) == map[]
    ensures Evictable(s, KB) && s.clean[0] == 0 && Holds(s, KA, 0)
  {
    es, s := FillClean(n, n);
    NotYetHashed(s, n, n, 0, KB);
    assert 0 in s.clean by { assert s.clean[0] == 0; }
  }

  /** A read of `KB` in that cache, and the first steps of the round that demotes block 0. */
  lemma Demoting(n: nat, upTo: nat) returns (es: seq<Event>, d: Disk, s: State)
    requires 0 < n <= CACHE_BLOCK_NUMBER && 4 <= upTo <= 6
    ensures AllPossible(Empty(n), G(), es) && AllAllowed(Empty(n), G(), es) && d == Ending(Empty(n), G(), es)
    ensures Evictable(s, KB) && s.clean[0] == 0 && Holds(s, KA, 0)
    ensures Coherent(d, G(), map[]) && d.cache == Evict(s, KB, upTo) && (upTo >= 5 ==> d.trims > 0)
  {
    var before;
    before, s := Full(n);
    es := EvictRun(G(), Empty(n), before, s, KB, upTo, KA, map[]);
    d := Ending(Empty(n), G(), es);
    LeadsCoherent(n, es, Evict(s, KB, upTo));
  }

  /** Until the demotion completes, `KA` is there. */
  lemma StillHeld(s: State, upTo: nat)
    requires Evictable(s, KB) && s.clean[0] == 0 && Holds(s, KA, 0) && 4 <= upTo <= 5
    ensures Holds(Evict(s, KB, upTo), KA, 0) && Hazard(Evict(s, KB, upTo), KA)
  {
  }

  /** The same for a write to the block that is being demoted. */
  lemma DemotionHazardHappens(n: nat, name: Name, page: nat, data: seq<Page>, i: nat)
    returns (es: seq<Event>, d: Disk)
    requires 0 < n <= CACHE_BLOCK_NUMBER
    requires KeyOf(name, page) == KA && CheckPio(page, |data|) && i < |data| && data[i] != BLANK
    ensures AllPossible(Empty(n), G(), es) && AllAllowed(Empty(n), G(), es) && d == Ending(Empty(n), G(), es)
    ensures Coherent(d, G(), map[]) && Hazard(d.cache, KA) && Holds(d.cache, KA, 0)
    ensures PageAt(Land(DoWrite(d, G(), name, page, data), G()), G(), name, page + i) != data[i]
  {
    var s;
    es, d, s := Demoting(n, 4);
    StillHeld(s, 4);
    HazardLoses(d, G(), map[], name, page, data, i);
  }

  // ---------- the trim of block 0 ----------

  lemma TrimSpoils(d: Disk, g: Addresses, flat: Flat, left: seq<Page>, j: nat)
    requires Coherent(d, g, flat) && d.trims > 0 && Holds(d.cache, KA, 0) && j < |left| <= 8
    ensures PageOf(DoTrim(d, g, left, true), g, KA, j) == left[j]
  {
    TrimmedPage(d, g, flat, left, true, j);
  }

  /** A demotion whose trim acts before the block is unhashed: a read of the block being demoted returns
      what the trim left. */
  lemma TrimHappens(n: nat, left: seq<Page>, j: nat) returns (es: seq<Event>, d: Disk)
    requires 0 < n <= CACHE_BLOCK_NUMBER && j < |left| <= 8 && left[j] != BLANK
    ensures AllPossible(Empty(n), G(), es) && AllAllowed(Empty(n), G(), es) && d == Ending(Empty(n), G(), es)
    ensures Coherent(d, G(), map[]) && Possible(d, TrimActs(left, true))
    ensures PageOf(DoTrim(d, G(), left, true), G(), KA, j) != Truth(map[], KA, j)
  {
    var s;
    es, d, s := Demoting(n, 5);
    StillHeld(s, 5);
    TrimSpoils(d, G(), map[], left, j);
  }

  lemma WrittenAgain(d: Disk, g: Addresses, data: seq<Page>, s: State)
    requires Coherent(d, g, map[]) && Used(g, KA) && |data| == 8
    requires Evictable(s, KB) && s.clean[0] == 0 && Holds(s, KA, 0) && d.cache == Evict(s, KB, 6)
    ensures !BlockZeroInUse(d.cache)
    ensures var e := DoWrite(d, g, A, 0, data);
      && Coherent(e, g, FlatWrite(map[], A, 0, data)) && e.trims == d.trims && Holds(e.cache, KA, 0)
  {
    if Hashed(d.cache, KA) { assert Holds(s, KA, Find(d.cache, KA).value); }
    assert KB.name[0] != KA.name[0];
    WriteInserts(d.cache, A, 0, 8);
    WriteKept(d, g, map[], A, 0, data);
  }

  /** The same trim, acting only after the block has been demoted and a write of all its pages has
      inserted it again: what the write left is gone. */
  lemma LateTrimHappens(n: nat, data: seq<Page>, left: seq<Page>, j: nat)
    returns (es: seq<Event>, d: Disk, e: Disk)
    requires 0 < n <= CACHE_BLOCK_NUMBER && |data| == 8 && j < |left| <= 8 && left[j] != data[j]
    ensures AllPossible(Empty(n), G(), es) && AllAllowed(Empty(n), G(), es) && d == Ending(Empty(n), G(), es)
    ensures !BlockZeroInUse(d.cache) && Inv(d.cache) && e == DoWrite(d, G(), A, 0, data)
    ensures Coherent(e, G(), FlatWrite(map[], A, 0, data)) && Possible(e, TrimActs(left, true))
    ensures PageOf(DoTrim(e, G(), left, true), G(), KA, j) != data[j]
  {
    var s;
    es, d, s := Demoting(n, 6);
    WrittenAgain(d, G(), data, s);
    e := DoWrite(d, G(), A, 0, data);
    TrimSpoils(e, G(), FlatWrite(map[], A, 0, data), left, j);
  }

  // ---------- a failed writeback ----------

  lemma FilledStuck(s: State, n: nat, c: nat)
    requires c == n / 2 < n && Filled(s, n, c, n - c)
    ensures Stuck(s, KB) && s.dirty[0] == c && Holds(s, Key(A, c), c)
  {
    NotYetHashed(s, n, c, n - c, KB);
    assert c in s.dirty by { assert s.dirty[0] == c; }
  }

  /** A cache that is half clean, and else dirty. */
  lemma Half(n: nat, data: seq<Page>, c: nat) returns (es: seq<Event>, s: State)
    requires 0 < n <= CACHE_BLOCK_NUMBER && |data| == 8 && c == n / 2
    ensures Leads(G(), Empty(n), es, s) && Wrote(FlatAfter(map[], es), c, data)
    ensures Filled(s, n, c, n - c) && Stuck(s, KB) && s.dirty[0] == c && Holds(s, Key(A, c), c)
  {
    es, s := FillDirty(n, c, n - c, data);
    FilledStuck(s, n, c);
  }

  /** After the failed writeback the block is clean, and the next to be demoted. */
  lemma FailedEvictable(s: State, k: Key)
    requires Stuck(s, k) && |s.clean| == |s.slots| / 2 && Inv(Failed(s))
    ensures Evictable(Failed(s), k) && Failed(s).clean[0] == s.dirty[0]
  {
    if Hashed(Failed(s), k) { assert Holds(s, k, Find(Failed(s), k).value); }
  }

  lemma CompletedDisk(d: Disk, s: State, k: Key) returns (e: Disk)
    requires Inv(d.cache) && Stuck(s, k) && d.cache == Fail(s, k, 6)
    ensures FailedWriteback(d.cache) && e == DoWork(d, G(), Complete, []) && Inv(e.cache) && e.cache == Failing(s, k)
  {
    FailCompletes(s, k);
    e := DoWork(d, G(), Complete, []);
  }

  /** The failed writeback is completed and its work removed. */
  lemma Completed(d: Disk, s: State, k: Key) returns (e: Disk, es: seq<Event>)
    requires Inv(d.cache) && Stuck(s, KB) && |s.clean| == |s.slots| / 2 && d.cache == Fail(s, KB, 6)
    ensures FailedWriteback(d.cache) && e == DoWork(d, G(), Complete, [])
    ensures Leads(G(), e, es, Failed(s)) && AllQuiet(G(), es, k) && Evictable(Failed(s), KB)
  {
    e := CompletedDisk(d, s, KB);
    FailRemoves(s, KB);
    es := Extend(G(), e, [], Failing(s, KB), RemoveWork, Failed(s));
    FailedEvictable(s, KB);
  }

  /** A read of `KB` then evicts the block. */
  lemma FailThenEvict(d: Disk, s: State, k: Key) returns (e: Disk, es: seq<Event>)
    requires Inv(d.cache) && Stuck(s, KB) && |s.clean| == |s.slots| / 2 && d.cache == Fail(s, KB, 6)
    requires Holds(s, k, s.dirty[0]) && k != KB
    ensures FailedWriteback(d.cache) && e == DoWork(d, G(), Complete, [])
    ensures AllPossible(e, G(), es) && AllAllowed(e, G(), es) && AllQuiet(G(), es, k)
    ensures !Hashed(Ending(e, G(), es).cache, k)
  {
    e, es := Completed(d, s, k);
    es := EvictRun(G(), e, es, Failed(s), KB, 6, k, map[]);
    Unhashed(s, k);
  }

  lemma Unhashed(s: State, k: Key)
    requires Inv(s) && s.dirty != [] && s.dirty[0] < |s.slots| && Holds(s, k, s.dirty[0])
    ensures !Hashed(Evict(Failed(s), KB, 6), k)
  {
    var t := Evict(Failed(s), KB, 6);
    if Hashed(t, k) { assert Holds(s, k, Find(t, k).value); }
  }

  lemma UntilFailure(n: nat, data: seq<Page>, c: nat)
    returns (es: seq<Event>, d: Disk, flat: Flat, s: State)
    requires 0 < n <= CACHE_BLOCK_NUMBER && |data| == 8 && c == n / 2
    ensures AllPossible(Empty(n), G(), es) && AllAllowed(Empty(n), G(), es) && d == Ending(Empty(n), G(), es)
    ensures flat == FlatAfter(map[], es) && Wrote(flat, c, data) && Coherent(d, G(), flat) && d.origin == map[]
    ensures Stuck(s, KB) && |s.clean| == |s.slots| / 2 && d.cache == Fail(s, KB, 6) && Holds(s, Key(A, c), s.dirty[0])
  {
    var before;
    before, s := Half(n, data, c);
    es := FailRun(G(), Empty(n), before, s, KB, 6, KA, map[]);
    d, flat := Ending(Empty(n), G(), es), FlatAfter(map[], es);
    LeadsCoherent(n, es, Fail(s, KB, 6));
  }

  /** From a failed writeback of a block whose file is blank, by its completion and a demotion. */
  lemma ThenLost(d: Disk, flat: Flat, s: State, k: Key, j: nat) returns (e: Disk, es: seq<Event>)
    requires Coherent(d, G(), flat) && d.origin == map[] && j < 8 && Truth(flat, k, j) != BLANK && k != KB
    requires Stuck(s, KB) && |s.clean| == |s.slots| / 2 && d.cache == Fail(s, KB, 6) && Holds(s, k, s.dirty[0])
    ensures FailedWriteback(d.cache) && e == DoWork(d, G(), Complete, [])
    ensures AllPossible(e, G(), es) && AllAllowed(e, G(), es) && AllQuiet(G(), es, k)
    ensures PageOf(Ending(e, G(), es), G(), k, j) != Truth(flat, k, j)
  {
    e, es := FailThenEvict(d, s, k);
    FailedWritebackExactly(d, G(), flat, e, k, es, j);
  }

  /** A block is written, its writeback fails, and it is demoted: the write is lost. */
  lemma FailedWritebackHappens(n: nat, data: seq<Page>, c: nat, j: nat)
    returns (es1: seq<Event>, d: Disk, e: Disk, es2: seq<Event>)
    requires 0 < n <= CACHE_BLOCK_NUMBER && c == n / 2 && |data| == 8 && j < 8 && data[j] != BLANK
    ensures AllPossible(Empty(n), G(), es1) && AllAllowed(Empty(n), G(), es1) && d == Ending(Empty(n), G(), es1)
    ensures Wrote(FlatAfter(map[], es1), c, data)
    ensures FailedWriteback(d.cache) && e == DoWork(d, G(), Complete, [])
    ensures AllPossible(e, G(), es2) && AllAllowed(e, G(), es2) && AllQuiet(G(), es2, Key(A, c))
    ensures PageOf(Ending(e, G(), es2), G(), Key(A, c), j) != data[j]
  {
    var flat, s;
    es1, d, flat, s := UntilFailure(n, data, c);
    e, es2 := ThenLost(d, flat, s, Key(A, c), j);
  }

  // ---------- discards ----------

  /** A block is written whole and discarded, and the write is forgotten. */
  lemma DiscardForgetsHappens(n: nat, data: seq<Page>, j: nat) returns (es: seq<Event>, d: Disk)
    requires 0 < n <= CACHE_BLOCK_NUMBER && |data| == 8 && j < 8 && data[j] != BLANK
    ensures es == [Event.Write(A, 0, data)]
    ensures AllPossible(Empty(n), G(), es) && AllAllowed(Empty(n), G(), es) && d == Ending(Empty(n), G(), es)
    ensures Possible(d, Event.Discard(A, 0, 8))
    ensures PageOf(Apply(d, G(), Event.Discard(A, 0, 8)), G(), KA, j) != data[j]
  {
    es := InsertRun(Empty(n), [], Start(n), 0, data);
    d := Ending(Empty(n), G(), es);
    EmptyCoherent(n);
    InsertGoes(Start(n), KA);
    FindIs(d.cache, KA, 0);
    WrittenInserted(Empty(n), G(), 0, data);
    WriteForgottenExactly(Empty(n), G(), map[], A, 0, data, j);
  }

  lemma LeadsReachable(n: nat, es: seq<Event>, s: State)
    requires n > 0 && Leads(G(), Empty(n), es, s)
    ensures Reachable(n, s)
  {
    var acts := RunActions(Empty(n), G(), es);
  }

  lemma PendingHit(t: State, s: State, k: Key)
    requires Stuck(t, KB) && Holds(t, k, t.dirty[0]) && Inv(s) && s == Fail(t, KB, 5)
    ensures Hashed(s, k) && !Enabled(s, Remove(k))
  {
    FindIs(s, k, t.dirty[0]);
  }

  /** The worker is writing a block back when its key is discarded, which the code does not check for. */
  lemma InFlightDiscardHappens(n: nat, c: nat) returns (s: State)
    requires 0 < n <= CACHE_BLOCK_NUMBER && c == n / 2
    ensures Reachable(n, s) && Inv(s) && Hashed(s, Key(A, c)) && !Enabled(s, Remove(Key(A, c)))
  {
    var data: seq<Page> := seq(8, _ => BLANK);
    var before, t := Half(n, data, c);
    var es := FailRun(G(), Empty(n), before, t, KB, 5, KA, map[]);
    s := Fail(t, KB, 5);
    LeadsReachable(n, es, s);
    PendingHit(t, s, Key(A, c));
  }

  /** The worker is about to try a writeback, and the dirty blocks are the `m` from `c` on. */
  ghost predicate Dwindling(s: State, c: nat, m: nat) {
    && Inv(s) && s.worker.Trying? && s.worker.kind.Writeback? && |s.dirty| == m > 0
    && (forall i :: 0 <= i < m ==> s.dirty[i] == c + i)
    && (forall i: nat :: c <= i < c + m && i < |s.slots| ==> s.slots[i].key == Key(A, i))
  }

  /** Discarding the last one. */
  lemma OneFewer(s: State, c: nat, m: nat)
    requires Dwindling(s, c, m)
    ensures c + m - 1 < |s.slots| && Enabled(s, Remove(Key(A, c + m - 1)))
    ensures m > 1 ==> Dwindling(Next(s, Remove(Key(A, c + m - 1))), c, m - 1)
    ensures Next(s, Remove(Key(A, c + m - 1))).worker == s.worker
  {
    var b, k := s.dirty[m - 1], Key(A, c + m - 1);
    assert b in s.dirty && Holds(s, k, b);
    FindIs(s, k, b);
    RemoveIs(s, k, b);
    WithoutAt(s.dirty, m - 1);
  }

  /** Discards until one dirty block is left. */
  lemma {:induction false} DiscardDown(s: State, acts: seq<Action>, c: nat, m: nat) returns (all: seq<Action>)
    requires Inv(s) && Legal(s, acts) && Dwindling(Exec(s, acts), c, m)
    ensures Legal(s, all) && Dwindling(Exec(s, all), c, 1)
    decreases m
  {
    all := acts;
    if m > 1 {
      OneFewer(Exec(s, acts), c, m);
      all := Snoc(s, acts, Remove(Key(A, c + m - 1)));
      all := DiscardDown(s, all, c, m - 1);
    }
  }

  lemma FilledDwindles(t: State, s: State, n: nat, c: nat)
    requires c < n && Filled(t, n, c, n - c) && Stuck(t, KB) && Inv(s) && s == Fail(t, KB, 4)
    ensures Dwindling(s, c, n - c)
  {
  }

  lemma BeforeThirdAttempt(n: nat, c: nat) returns (acts: seq<Action>)
    requires 0 < n <= CACHE_BLOCK_NUMBER && c == n / 2
    ensures Legal(Start(n), acts) && Dwindling(Exec(Start(n), acts), c, n - c)
  {
    var data: seq<Page> := seq(8, _ => BLANK);
    var before, s := Half(n, data, c);
    var es := FailRun(G(), Empty(n), before, s, KB, 4, KA, map[]);
    acts := RunActions(Empty(n), G(), es);
    FilledDwindles(s, Fail(s, KB, 4), n, c);
  }

  lemma LastOne(s: State, c: nat, k: Key)
    requires Dwindling(s, c, 1) && k == Key(A, c)
    ensures s.dirty == [c] && Enabled(s, Remove(k))
    ensures Next(Next(s, Remove(k)), Attempt).worker == Finished(s.worker.key)
  {
    OneFewer(s, c, 1);
    DiscardWastesWork(s, c);
  }

  /** After two failed attempts one block is left dirty: discarding that one wastes the work. */
  lemma WastedWorkHappens(n: nat, c: nat) returns (s: State)
    requires 0 < n <= CACHE_BLOCK_NUMBER && c == n / 2
    ensures Reachable(n, s) && Inv(s) && s.worker.Trying? && s.worker.kind.Writeback? && s.dirty == [c]
    ensures Enabled(s, Remove(Key(A, c))) && Next(Next(s, Remove(Key(A, c))), Attempt).worker == Finished(s.worker.key)
  {
    var acts := BeforeThirdAttempt(n, c);
    acts := DiscardDown(Start(n), acts, c, n - c);
    s := Exec(Start(n), acts);
    LastOne(s, c, Key(A, c));
  }

  // ---------- pages that 32-bit offsets do not tell apart ----------

  /** A write to page 0 of an uncached file is read through page 2^20. */
  lemma CollisionHappens(n: nat, data: Page)
    requires n > 0 && data != BLANK
    ensures var e := DoWrite(Empty(n), G(), A, 0, [data]);
      PageAt(e, G(), A, PAGES) == data && Get(FlatWrite(map[], A, 0, [data]), (A, PAGES)) == BLANK
  {
    PagesCollideExactly(Empty(n), 512, G().used, A, 0, PAGES, data);
    TruthAfterWrite(map[], A, 0, [data], Key(A, PAGES / 8), 0);
  }
}
