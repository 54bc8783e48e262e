/** What a discard takes back: over any allowed run, the pages of a discarded block are those that were
    last saved to its file, told from the history of the run. */
module Discards {
  import opened Works
  import opened CacheMachine
  import opened CacheInvariant
  import opened Geometry
  import opened FlatStorage
  import opened Coherence
  import opened Limits

  /** The block of `k` is being written back. */
  ghost predicate Saving(s: State, k: Key) {
    s.worker.Moving? && s.worker.kind.Writeback? && Holds(s, k, s.worker.block)
  }

  ghost predicate Loads(s: State, e: Event, k: Key) {
    e.Work? && e.step == Load(true) && Saving(s, k)
  }

  ghost predicate Stores(s: State, e: Event, k: Key) {
    e.Work? && e.step.Store? && Saving(s, k)
  }

  /** Page `j` of `k` in flat storage when the last writeback of `k` was loaded. */
  ghost function LoadedPage(d: Disk, g: Addresses, flat: Flat, es: seq<Event>, k: Key, j: nat): Page
    requires Inv(d.cache) && AllPossible(d, g, es)
  {
    if es == [] then BLANK
    else
      var before, e := es[..|es| - 1], es[|es| - 1];
      if Loads(Ending(d, g, before).cache, e, k) then Truth(FlatAfter(flat, before), k, j)
      else LoadedPage(d, g, flat, before, k, j)
  }

  /** Page `j` of `k` as it was last saved: in flat storage when the block last owed nothing, or when the
      last stored writeback was loaded, or what a failed store left since. */
  ghost function SavedPage(d: Disk, g: Addresses, flat: Flat, es: seq<Event>, k: Key, j: nat): Page
    requires Inv(d.cache) && AllPossible(d, g, es)
  {
    if es == [] then Truth(flat, k, j)
    else
      var before, e := es[..|es| - 1], es[|es| - 1];
      if OriginCurrent(Ending(d, g, es).cache, k) then Truth(FlatAfter(flat, es), k, j)
      else if Stores(Ending(d, g, before).cache, e, k) && e.step.ok then LoadedPage(d, g, flat, before, k, j)
      else if Stores(Ending(d, g, before).cache, e, k) && j < |e.left| then e.left[j]
      else SavedPage(d, g, flat, before, k, j)
  }

  // ---------- one event ----------

  lemma WriteElsewhere(d: Disk, g: Addresses, name: Name, page: nat, data: seq<Page>, k: Key, j: nat)
    requires Inv(d.cache) && Sane(g, |d.cache.slots|) && CheckPio(page, |data|) && j < 8
    requires Used(g, KeyOf(name, page)) && Used(g, k)
    requires !OriginCurrent(DoWrite(d, g, name, page, data).cache, k)
    ensures OriginAt(DoWrite(d, g, name, page, data), g, k, j) == OriginAt(d, g, k, j)
  {
    var e, t := DoWrite(d, g, name, page, data), WriteLookup(d.cache, name, page, |data|);
    if !Hashed(t, KeyOf(name, page)) {
      OriginAfterWrite(d, g, e, name, page, data, k, j);
    }
  }

  lemma StoredPage(d: Disk, g: Addresses, flat: Flat, ok: bool, left: seq<Page>, k: Key, j: nat)
    requires Coherent(d, g, flat) && Enabled(d.cache, Store(ok)) && |left| <= 8 && Used(g, k) && j < 8
    ensures |d.buf| == 8
    ensures OriginAt(DoWork(d, g, Store(ok), left), g, k, j) ==
      if !Saving(d.cache, k) then OriginAt(d, g, k, j)
      else if ok then d.buf[j] else if j < |left| then left[j] else OriginAt(d, g, k, j)
  {
    var s, w, e := d.cache, d.cache.worker, DoWork(d, g, Store(ok), left);
    if w.kind.Writeback? {
      var q := s.slots[w.block].key;
      assert Holds(s, q, w.block) && Used(g, q);
      OriginAfterMove(d, g, e, q, if ok then d.buf else left, k, j);
    }
  }

  /** The file of a key that still owes something changes by a store of its block only. */
  lemma FileStep(d: Disk, g: Addresses, flat: Flat, e: Event, k: Key, j: nat)
    requires Coherent(d, g, flat) && Allowed(d, g, e) && Used(g, k) && j < 8
    requires !OriginCurrent(Apply(d, g, e).cache, k)
    ensures Stores(d.cache, e, k) ==> |d.buf| == 8
    ensures OriginAt(Apply(d, g, e), g, k, j) ==
      if !Stores(d.cache, e, k) then OriginAt(d, g, k, j)
      else if e.step.ok then d.buf[j] else if j < |e.left| then e.left[j] else OriginAt(d, g, k, j)
  {
    match e
    case Write(name, page, data) => if CheckPio(page, |data|) { WriteElsewhere(d, g, name, page, data, k, j); }
    case Work(a, left) => if a.Store? { StoredPage(d, g, flat, a.ok, left, k, j); }
    case _ =>
  }

  /** The worker's buffer holds page `j` of `k`, loaded for a writeback. */
  ghost predicate Carries(d: Disk, k: Key, j: nat, content: Page) {
    Saving(d.cache, k) && d.cache.worker.stage.Loaded? ==> |d.buf| == 8 && j < 8 && d.buf[j] == content
  }

  lemma CarriedByUser(d: Disk, g: Addresses, a: Action, t: Disk, k: Key, j: nat, content: Page)
    requires Inv(d.cache) && Enabled(d.cache, a) && !WorkerAction(a) && Carries(d, k, j, content)
    requires t.cache == Next(d.cache, a) && t.buf == d.buf
    ensures Carries(t, k, j, content)
  {
    if a.Remove? && Hashed(d.cache, a.key) { RemoveIs(d.cache, a.key, Find(d.cache, a.key).value); }
    if d.cache.free != [] { assert d.cache.free[0] in d.cache.free; }
  }

  lemma CarriedByWrite(d: Disk, g: Addresses, name: Name, page: nat, data: seq<Page>, k: Key, j: nat, content: Page)
    requires Inv(d.cache) && Carries(d, k, j, content)
    ensures Carries(DoWrite(d, g, name, page, data), k, j, content)
  {
    var q, t := KeyOf(name, page), WriteLookup(d.cache, name, page, |data|);
    var a := if Overwritable(page, |data|) then LookupInsert(q) else Lookup(q);
    CarriedByUser(d, g, a, d.(cache := t), k, j, content);
    if Hashed(t, q) {
      CarriedByUser(d.(cache := t), g, SetDirty(Find(t, q).value), DoWrite(d, g, name, page, data), k, j, content);
    }
  }

  lemma CarriedByWorker(d: Disk, g: Addresses, flat: Flat, a: Action, left: seq<Page>, k: Key, j: nat, content: Page)
    requires Coherent(d, g, flat) && Enabled(d.cache, a) && WorkerAction(a) && Carries(d, k, j, content) && j < 8
    requires a == Load(true) && Saving(d.cache, k) ==> content == Truth(flat, k, j)
    ensures Carries(DoWork(d, g, a, left), k, j, content)
  {
    var w := d.cache.worker;
    if a == Load(true) && w.kind.Writeback? && Holds(d.cache, k, w.block) {
      assert SsdAt(d, g, w.block, j) == Truth(flat, k, j);
    }
    if a.Attempt? { AttemptFrame(d.cache); }
  }

  lemma CarriedStep(d: Disk, g: Addresses, flat: Flat, e: Event, k: Key, j: nat, content: Page)
    requires Coherent(d, g, flat) && Allowed(d, g, e) && j < 8
    requires if Loads(d.cache, e, k) then content == Truth(flat, k, j) else Carries(d, k, j, content)
    ensures Carries(Apply(d, g, e), k, j, content)
  {
    match e
    case Read(name, page, cnt) =>
      if CheckPio(page, cnt) {
        CarriedByUser(d, g, Lookup(KeyOf(name, page)), Apply(d, g, e), k, j, content);
      }
    case Write(name, page, data) =>
      if CheckPio(page, |data|) { CarriedByWrite(d, g, name, page, data, k, j, content); }
    case Discard(name, page, cnt) =>
      if CheckPio(page, cnt) {
        CarriedByUser(d, g, Remove(KeyOf(name, page)), Apply(d, g, e), k, j, content);
      }
    case Work(a, left) => CarriedByWorker(d, g, flat, a, left, k, j, content);
    case TrimActs(_, _) =>
  }

  // ---------- whole runs ----------

  /** The worker's buffer holds what the last writeback loaded. */
  lemma {:induction false} BufferIsLoaded(d: Disk, g: Addresses, flat: Flat, es: seq<Event>, k: Key, j: nat)
    requires Coherent(d, g, flat) && OriginCurrent(d.cache, k) && j < 8
    requires AllPossible(d, g, es) && AllAllowed(d, g, es)
    ensures Carries(Ending(d, g, es), k, j, LoadedPage(d, g, flat, es, k, j))
  {
    if es != [] {
      var before := es[..|es| - 1];
      BufferIsLoaded(d, g, flat, before, k, j);
      RunRefinesFlat(d, g, flat, before);
      CarriedStep(Ending(d, g, before), g, FlatAfter(flat, before), es[|es| - 1], k, j,
                  LoadedPage(d, g, flat, es, k, j));
    }
  }

  lemma SettledPage(d: Disk, g: Addresses, flat: Flat, k: Key, j: nat)
    requires Coherent(d, g, flat) && OriginCurrent(d.cache, k) && Used(g, k) && j < 8
    ensures OriginAt(d, g, k, j) == Truth(flat, k, j)
  {
  }

  lemma SavedStep(d: Disk, g: Addresses, flat: Flat, e: Event, k: Key, j: nat, saved: Page, loaded: Page)
    requires Coherent(d, g, flat) && Allowed(d, g, e) && Used(g, k) && j < 8
    requires !OriginCurrent(Apply(d, g, e).cache, k)
    requires OriginAt(d, g, k, j) == saved && Carries(d, k, j, loaded)
    ensures OriginAt(Apply(d, g, e), g, k, j) ==
      if Stores(d.cache, e, k) && e.step.ok then loaded
      else if Stores(d.cache, e, k) && j < |e.left| then e.left[j] else saved
  {
    FileStep(d, g, flat, e, k, j);
  }

  /** The file of a key always holds what was last saved. */
  lemma {:induction false} FileIsSaved(d: Disk, g: Addresses, flat: Flat, es: seq<Event>, k: Key, j: nat)
    requires Coherent(d, g, flat) && OriginCurrent(d.cache, k) && Used(g, k) && j < 8
    requires AllPossible(d, g, es) && AllAllowed(d, g, es)
    ensures OriginAt(Ending(d, g, es), g, k, j) == SavedPage(d, g, flat, es, k, j)
  {
    RunRefinesFlat(d, g, flat, es);
    if OriginCurrent(Ending(d, g, es).cache, k) {
      SettledPage(Ending(d, g, es), g, FlatAfter(flat, es), k, j);
    } else {
      var before := es[..|es| - 1];
      FileIsSaved(d, g, flat, before, k, j);
      BufferIsLoaded(d, g, flat, before, k, j);
      RunRefinesFlat(d, g, flat, before);
      SavedStep(Ending(d, g, before), g, FlatAfter(flat, before), es[|es| - 1], k, j,
                SavedPage(d, g, flat, before, k, j), LoadedPage(d, g, flat, before, k, j));
    }
  }

  ghost function Discarded(d: Disk, k: Key): (e: Disk)
    requires Inv(d.cache) && Enabled(d.cache, Remove(k))
    ensures Inv(e.cache)
  {
    d.(cache := Next(d.cache, Remove(k)))
  }

  lemma DiscardedPage(d: Disk, g: Addresses, k: Key, j: nat)
    requires Inv(d.cache) && Enabled(d.cache, Remove(k)) && Sane(g, |d.cache.slots|) && j < 8
    ensures PageOf(Discarded(d, k), g, k, j) == OriginAt(d, g, k, j)
  {
    var s, e := d.cache, Discarded(d, k);
    if Hashed(s, k) { RemoveIs(s, k, Find(s, k).value); }
    if Hashed(e.cache, k) { assert Holds(s, k, Find(e.cache, k).value); }
    UnhashedPage(e, g, |s.slots|, k, j);
  }

  /** A discard takes each page of its block back to what was last saved, so that after it the page reads
      right if and only if flat storage's page is what was last saved. */
  lemma DiscardForgetsExactly(d: Disk, g: Addresses, flat: Flat, es: seq<Event>, k: Key, j: nat)
    requires Coherent(d, g, flat) && OriginCurrent(d.cache, k) && Used(g, k) && j < 8
    requires AllPossible(d, g, es) && AllAllowed(d, g, es) && Enabled(Ending(d, g, es).cache, Remove(k))
    ensures PageOf(Discarded(Ending(d, g, es), k), g, k, j) == SavedPage(d, g, flat, es, k, j)
    ensures PageOf(Discarded(Ending(d, g, es), k), g, k, j) == Truth(FlatAfter(flat, es), k, j)
       <==> SavedPage(d, g, flat, es, k, j) == Truth(FlatAfter(flat, es), k, j)
  {
    RunRefinesFlat(d, g, flat, es);
    FileIsSaved(d, g, flat, es, k, j);
    DiscardedPage(Ending(d, g, es), g, k, j);
  }

  // ---------- what that means while nothing is saved ----------

  /** From the start of the run on, `k` owes something after every event, and nothing of it is stored. */
  ghost predicate Unsaved(d: Disk, g: Addresses, es: seq<Event>, k: Key)
    requires Inv(d.cache) && AllPossible(d, g, es)
  {
    es != [] ==>
      var before := es[..|es| - 1];
      && Unsaved(d, g, before, k) && !Stores(Ending(d, g, before).cache, es[|es| - 1], k)
      && !OriginCurrent(Ending(d, g, es).cache, k)
  }

  lemma {:induction false} UnsavedIsOld(d: Disk, g: Addresses, flat: Flat, es: seq<Event>, k: Key, j: nat)
    requires Inv(d.cache) && AllPossible(d, g, es) && Unsaved(d, g, es, k)
    ensures SavedPage(d, g, flat, es, k, j) == Truth(flat, k, j)
  {
    if es != [] { UnsavedIsOld(d, g, flat, es[..|es| - 1], k, j); }
  }

  /** While nothing of a block is saved, a discard takes it back to the start: its pages read right if and
      only if flat storage has not changed them since. */
  lemma UnsavedIsForgotten(d: Disk, g: Addresses, flat: Flat, es: seq<Event>, k: Key, j: nat)
    requires Coherent(d, g, flat) && OriginCurrent(d.cache, k) && Used(g, k) && j < 8
    requires AllPossible(d, g, es) && AllAllowed(d, g, es) && Enabled(Ending(d, g, es).cache, Remove(k))
    requires Unsaved(d, g, es, k)
    ensures PageOf(Discarded(Ending(d, g, es), k), g, k, j) == Truth(flat, k, j)
    ensures PageOf(Discarded(Ending(d, g, es), k), g, k, j) == Truth(FlatAfter(flat, es), k, j)
       <==> Truth(flat, k, j) == Truth(FlatAfter(flat, es), k, j)
  {
    DiscardForgetsExactly(d, g, flat, es, k, j);
    UnsavedIsOld(d, g, flat, es, k, j);
  }

  lemma HitIsNoHazard(d: Disk, g: Addresses, name: Name, page: nat, data: seq<Page>)
    requires Inv(d.cache) && Hashed(DoWrite(d, g, name, page, data).cache, KeyOf(name, page))
    requires Enabled(DoWrite(d, g, name, page, data).cache, Remove(KeyOf(name, page)))
    ensures !Hazard(d.cache, KeyOf(name, page))
  {
    var s, k := d.cache, KeyOf(name, page);
    if Hazard(s, k) {
      if s.worker.kind.Promotion? {
        PromotedIsQueued(s, k);
        WriteMisses(s, name, page, |data|);
      } else {
        WriteFinds(s, name, page, |data|, s.worker.block);
        FindIs(DoWrite(d, g, name, page, data).cache, k, s.worker.block);
      }
    }
  }

  /** A write that hits or inserts a block with nothing else to save is forgotten by the discard, page by
      page, unless it wrote what was there. */
  lemma WriteForgottenExactly(d: Disk, g: Addresses, flat: Flat, name: Name, page: nat, data: seq<Page>, i: nat)
    requires Coherent(d, g, flat) && Used(g, KeyOf(name, page)) && CheckPio(page, |data|) && i < |data|
    requires OriginCurrent(d.cache, KeyOf(name, page))
    requires Hashed(DoWrite(d, g, name, page, data).cache, KeyOf(name, page))
    requires Enabled(DoWrite(d, g, name, page, data).cache, Remove(KeyOf(name, page)))
    ensures PageOf(Discarded(DoWrite(d, g, name, page, data), KeyOf(name, page)), g, KeyOf(name, page), page % 8 + i)
         == data[i]
       <==> data[i] == Truth(flat, KeyOf(name, page), page % 8 + i)
  {
    var k, es := KeyOf(name, page), [Event.Write(name, page, data)];
    HitIsNoHazard(d, g, name, page, data);
    assert es[..0] == [];
    MarkedOwes(d, g, name, page, data);
    UnsavedIsForgotten(d, g, flat, es, k, page % 8 + i);
  }

  lemma MarkedOwes(d: Disk, g: Addresses, name: Name, page: nat, data: seq<Page>)
    requires Inv(d.cache) && Hashed(DoWrite(d, g, name, page, data).cache, KeyOf(name, page))
    ensures !OriginCurrent(DoWrite(d, g, name, page, data).cache, KeyOf(name, page))
  {
    var s, k := d.cache, KeyOf(name, page);
    if Hashed(s, k) {
      WriteFinds(s, name, page, |data|, Find(s, k).value);
    } else if Overwritable(page, |data|) && CanInsert(s, k) {
      WriteInserts(s, name, page, |data|);
    } else {
      WriteMisses(s, name, page, |data|);
    }
  }
}
