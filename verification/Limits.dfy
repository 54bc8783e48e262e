/** Where the cache stops being flat storage, and exactly when. */
module Limits {
  import opened Sequences
  import opened Works
  import opened CacheMachine
  import opened CacheInvariant
  import opened CacheRuns
  import opened Reclaim
  import opened Geometry
  import opened FlatStorage
  import opened Coherence

  /** The worker, alone, ends the transfer it has under way; every device works, and no trim acts. */
  ghost function Land(d: Disk, g: Addresses): (e: Disk)
    requires Inv(d.cache)
    ensures Inv(e.cache)
    decreases PhasesLeft(d.cache.worker)
  {
    if d.cache.worker.Moving? then Land(DoWork(d, g, NextAction(d.cache.worker), []), g) else d
  }

  /** What a read of one page returns. */
  ghost function PageAt(d: Disk, g: Addresses, name: Name, page: nat): Page {
    ReadPages(d, g, name, page, 1)[0]
  }

  /** What a read of page `j` of block `k` of a file returns. */
  ghost function PageOf(d: Disk, g: Addresses, k: Key, j: nat): Page {
    PageAt(d, g, k.name, 8 * k.page + j)
  }

  lemma PageOfTrue(d: Disk, g: Addresses, flat: Flat, k: Key, j: nat)
    requires ReadsTrue(d, g, flat) && Used(g, k) && j < 8
    ensures PageOf(d, g, k, j) == Truth(flat, k, j)
  {
    var page := 8 * k.page + j;
    assert KeyOf(k.name, page) == k && page % 8 == j;
  }

  /** Every page in use reads as flat storage has it. */
  ghost predicate ReadsTrue(d: Disk, g: Addresses, flat: Flat) {
    forall name: Name, page: nat :: Used(g, KeyOf(name, page)) ==>
      PageAt(d, g, name, page) == Truth(flat, KeyOf(name, page), page % 8)
  }

  lemma CoherentReads(d: Disk, g: Addresses, flat: Flat)
    requires Coherent(d, g, flat)
    ensures ReadsTrue(d, g, flat)
  {
    forall name: Name, page: nat | Used(g, KeyOf(name, page))
      ensures PageAt(d, g, name, page) == Truth(flat, KeyOf(name, page), page % 8)
    {
      ReadsTruth(d, g, flat, name, page, 1);
      assert FlatPages(flat, name, page, 1)[0] == Get(flat, (name, page));
    }
  }

  /** A step that changes neither the table nor any contents shows in no read. */
  lemma SameReads(d: Disk, e: Disk, g: Addresses, flat: Flat)
    requires Inv(d.cache) && Inv(e.cache) && ReadsTrue(d, g, flat)
    requires e.ssd == d.ssd && e.origin == d.origin && e.cache.hashed == d.cache.hashed
    requires |e.cache.slots| == |d.cache.slots|
    requires forall b: nat :: b < |d.cache.slots| ==> e.cache.slots[b].key == d.cache.slots[b].key
    ensures ReadsTrue(e, g, flat)
  {
    forall name: Name, page: nat | Used(g, KeyOf(name, page))
      ensures PageAt(e, g, name, page) == Truth(flat, KeyOf(name, page), page % 8)
    {
      assert forall b: nat :: Holds(e.cache, KeyOf(name, page), b) <==> Holds(d.cache, KeyOf(name, page), b);
      assert PageAt(d, g, name, page) == Truth(flat, KeyOf(name, page), page % 8);
    }
  }

  lemma LandStep(d: Disk, g: Addresses)
    requires Inv(d.cache) && d.cache.worker.Moving?
    ensures var a := NextAction(d.cache.worker);
      && WorkerAction(a) && Enabled(d.cache, a) && a != Load(false) && a != Store(false)
      && PhasesLeft(DoWork(d, g, a, []).cache.worker) < PhasesLeft(d.cache.worker)
      && Land(d, g) == Land(DoWork(d, g, a, []), g)
  {
  }

  lemma FailedReads(d: Disk, g: Addresses, flat: Flat)
    requires Coherent(d, g, flat) && d.cache.worker.Moving?
    requires d.cache.worker.stage == Moved(false) && d.cache.worker.kind.Writeback?
    ensures ReadsTrue(DoWork(d, g, Complete, []), g, flat)
  {
    CoherentReads(d, g, flat);
    SameReads(d, DoWork(d, g, Complete, []), g, flat);
  }

  /** From agreement, every read is still right when the worker has landed. */
  lemma {:induction false} LandReads(d: Disk, g: Addresses, flat: Flat)
    requires Coherent(d, g, flat)
    ensures ReadsTrue(Land(d, g), g, flat)
    decreases PhasesLeft(d.cache.worker)
  {
    var w := d.cache.worker;
    if !w.Moving? {
      CoherentReads(d, g, flat);
    } else if w.stage == Moved(false) && w.kind.Writeback? {
      LandStep(d, g);
      FailedReads(d, g, flat);
    } else {
      LandStep(d, g);
      WorkKept(d, g, flat, NextAction(w), []);
      LandReads(DoWork(d, g, NextAction(w), []), g, flat);
    }
  }

  // ---------- a write while its block is in flight ----------

  lemma LandPromotion(d: Disk, g: Addresses, j: nat)
    requires Inv(d.cache) && Sane(g, |d.cache.slots|) && j < 8
    requires d.cache.worker.Moving? && d.cache.worker.kind.Promotion?
    requires d.cache.worker.stage == Moved(true)
    ensures var b := d.cache.worker.block;
      && Find(Land(d, g).cache, d.cache.worker.key) == Some(b)
      && SsdAt(Land(d, g), g, b, j) == SsdAt(d, g, b, j)
      && |Land(d, g).cache.slots| == |d.cache.slots|
  {
    var e := DoWork(d, g, Complete, []);
    assert Land(d, g) == Land(e, g) == e;
    assert Holds(e.cache, d.cache.worker.key, d.cache.worker.block);
  }

  lemma LandLoadedPromotion(d: Disk, g: Addresses, j: nat)
    requires Inv(d.cache) && Sane(g, |d.cache.slots|) && j < 8 && |d.buf| == 8
    requires d.cache.worker.Moving? && d.cache.worker.kind.Promotion? && d.cache.worker.stage.Loaded?
    ensures var b := d.cache.worker.block;
      && Find(Land(d, g).cache, d.cache.worker.key) == Some(b)
      && SsdAt(Land(d, g), g, b, j) == d.buf[j]
      && |Land(d, g).cache.slots| == |d.cache.slots|
  {
    var e := DoWork(d, g, Store(true), []);
    assert Land(d, g) == Land(e, g);
    SsdAfterMove(d, g, e, d.cache.worker.block, d.buf, d.cache.worker.block, j);
    LandPromotion(e, g, j);
  }

  lemma DemotedIsGone(s: State, t: State, k: Key)
    requires Inv(s) && s.worker.Moving? && s.worker.kind.Demotion? && s.worker.stage == Moved(true)
    requires Holds(s, k, s.worker.block) && t == Next(s, Complete)
    ensures !Hashed(t, k) && !t.worker.Moving?
  {
    DemotionIs(s, s.worker.block);
    if Hashed(t, k) { assert Holds(s, k, Find(t, k).value); }
  }

  lemma LandTrimmed(d: Disk, g: Addresses, k: Key)
    requires Inv(d.cache) && d.cache.worker.Moving? && d.cache.worker.kind.Demotion?
    requires d.cache.worker.stage == Moved(true) && Holds(d.cache, k, d.cache.worker.block)
    ensures !Hashed(Land(d, g).cache, k) && Land(d, g).origin == d.origin
  {
    var e := DoWork(d, g, Complete, []);
    DemotedIsGone(d.cache, e.cache, k);
    assert Land(d, g) == Land(e, g) == e;
  }

  lemma LandDemotion(d: Disk, g: Addresses, k: Key)
    requires Inv(d.cache) && d.cache.worker.Moving? && d.cache.worker.kind.Demotion?
    requires d.cache.worker.stage != Moved(false) && Holds(d.cache, k, d.cache.worker.block)
    ensures !Hashed(Land(d, g).cache, k) && Land(d, g).origin == d.origin
  {
    if d.cache.worker.stage.Reserved? {
      var e := DoWork(d, g, Trim, []);
      assert Land(d, g) == Land(e, g);
      assert Holds(e.cache, k, e.cache.worker.block);
      LandTrimmed(e, g, k);
    } else {
      LandTrimmed(d, g, k);
    }
  }

  lemma HitPage(t: Disk, g: Addresses, n: nat, k: Key, b: nat, j: nat)
    requires Sane(g, n) && b < n && Find(t.cache, k) == Some(b) && j < 8
    ensures PageOf(t, g, k, j) == SsdAt(t, g, b, j)
  {
    var page := 8 * k.page + j;
    assert KeyOf(k.name, page) == k && page % 8 == j;
    assert g.userLba(b, page, 0) == g.moveLba(b, page % 8 + 0);
  }

  lemma UnhashedPage(d: Disk, g: Addresses, n: nat, k: Key, j: nat)
    requires Sane(g, n) && !Hashed(d.cache, k) && j < 8
    ensures PageOf(d, g, k, j) == OriginAt(d, g, k, j)
  {
    assert KeyOf(k.name, 8 * k.page + j) == k && (8 * k.page + j) % 8 + 0 == j;
  }

  /** The page of a request, as a page of its block. */
  lemma PageAtIs(t: Disk, g: Addresses, name: Name, page: nat, i: nat, k: Key, j: nat)
    requires k == KeyOf(name, page) && j == page % 8 + i && j < 8
    ensures PageAt(t, g, name, page + i) == PageOf(t, g, k, j)
  {
    assert page + i == 8 * k.page + j;
  }

  /** After a hazardous write and the landing, a read still returns the page from before. */
  lemma PromotionLosesWrite(d: Disk, g: Addresses, flat: Flat, name: Name, page: nat, data: seq<Page>, i: nat)
    requires Coherent(d, g, flat) && Used(g, KeyOf(name, page)) && CheckPio(page, |data|) && i < |data|
    requires Hazard(d.cache, KeyOf(name, page)) && d.cache.worker.kind.Promotion?
    ensures PageAt(Land(DoWrite(d, g, name, page, data), g), g, name, page + i)
         == Truth(flat, KeyOf(name, page), page % 8 + i)
  {
    var e, k, j := DoWrite(d, g, name, page, data), KeyOf(name, page), page % 8 + i;
    PromotedIsQueued(d.cache, k);
    WriteMisses(d.cache, name, page, |data|);
    PromotionLandsOld(d, g, flat, e, k, j);
    PageAtIs(Land(e, g), g, name, page, i, k, j);
  }

  lemma PromotionLandsOld(d: Disk, g: Addresses, flat: Flat, e: Disk, k: Key, j: nat)
    requires Coherent(d, g, flat) && Hazard(d.cache, k) && d.cache.worker.kind.Promotion? && j < 8
    requires Inv(e.cache) && e.cache.worker == d.cache.worker && |e.cache.slots| == |d.cache.slots|
    requires e.ssd == d.ssd && e.buf == d.buf
    ensures PageOf(Land(e, g), g, k, j) == Truth(flat, k, j)
  {
    if d.cache.worker.stage.Loaded? {
      LandLoadedPromotion(e, g, j);
    } else {
      LandPromotion(e, g, j);
    }
    HitPage(Land(e, g), g, |d.cache.slots|, k, d.cache.worker.block, j);
  }

  lemma DemotionLosesWrite(d: Disk, g: Addresses, flat: Flat, name: Name, page: nat, data: seq<Page>, i: nat)
    requires Coherent(d, g, flat) && Used(g, KeyOf(name, page)) && CheckPio(page, |data|) && i < |data|
    requires Hazard(d.cache, KeyOf(name, page)) && d.cache.worker.kind.Demotion?
    ensures PageAt(Land(DoWrite(d, g, name, page, data), g), g, name, page + i)
         == Truth(flat, KeyOf(name, page), page % 8 + i)
  {
    var s, e, k, j := d.cache, DoWrite(d, g, name, page, data), KeyOf(name, page), page % 8 + i;
    WriteFinds(s, name, page, |data|, s.worker.block);
    DemotionLandsOld(d, g, flat, e, k, j);
    PageAtIs(Land(e, g), g, name, page, i, k, j);
  }

  lemma DemotionLandsOld(d: Disk, g: Addresses, flat: Flat, e: Disk, k: Key, j: nat)
    requires Coherent(d, g, flat) && Hazard(d.cache, k) && d.cache.worker.kind.Demotion? && Used(g, k) && j < 8
    requires Inv(e.cache) && e.cache.worker == d.cache.worker && |e.cache.slots| == |d.cache.slots|
    requires Holds(e.cache, k, d.cache.worker.block) && e.origin == d.origin
    ensures PageOf(Land(e, g), g, k, j) == Truth(flat, k, j)
  {
    LandDemotion(e, g, k);
    UnhashedPage(Land(e, g), g, |d.cache.slots|, k, j);
    assert OriginCurrent(d.cache, k);
    assert OriginAt(d, g, k, j) == Truth(flat, k, j);
  }

  lemma PromotedIsQueued(s: State, k: Key)
    requires Inv(s) && s.worker.Moving? && s.worker.kind.Promotion? && s.worker.key == k
    ensures !Hashed(s, k) && !CanInsert(s, k)
  {
    assert s.queue[0] == k;
    QueuedIsContained(s.queue, k);
  }

  lemma SameBlock(page: nat, i: nat)
    requires page % 8 + i < 8
    ensures (page + i) / 8 == page / 8 && (page + i) % 8 == page % 8 + i
  {
  }

  lemma WrittenIsTruth(flat: Flat, name: Name, page: nat, data: seq<Page>, i: nat)
    requires CheckPio(page, |data|) && i < |data|
    ensures KeyOf(name, page + i) == KeyOf(name, page)
    ensures Truth(FlatWrite(flat, name, page, data), KeyOf(name, page + i), (page + i) % 8) == data[i]
  {
    SameBlock(page, i);
    TruthAfterWrite(flat, name, page, data, KeyOf(name, page), page % 8 + i);
  }

  lemma SafeWriteReadsBack(d: Disk, g: Addresses, flat: Flat, name: Name, page: nat, data: seq<Page>, i: nat)
    requires Coherent(d, g, flat) && Used(g, KeyOf(name, page)) && CheckPio(page, |data|) && i < |data|
    requires !Hazard(d.cache, KeyOf(name, page))
    ensures PageAt(Land(DoWrite(d, g, name, page, data), g), g, name, page + i) == data[i]
  {
    WriteKept(d, g, flat, name, page, data);
    LandReads(DoWrite(d, g, name, page, data), g, FlatWrite(flat, name, page, data));
    WrittenIsTruth(flat, name, page, data, i);
  }

  /** Exactly the hazardous writes are lost: once the worker has landed, each page written reads back
      if and only if the write was no hazard, or wrote what was there already. */
  lemma WriteSurvivesExactly(d: Disk, g: Addresses, flat: Flat, name: Name, page: nat, data: seq<Page>, i: nat)
    requires Coherent(d, g, flat) && Used(g, KeyOf(name, page)) && CheckPio(page, |data|) && i < |data|
    ensures PageAt(Land(DoWrite(d, g, name, page, data), g), g, name, page + i) == data[i]
       <==> (!Hazard(d.cache, KeyOf(name, page)) || data[i] == Truth(flat, KeyOf(name, page), page % 8 + i))
  {
    if Hazard(d.cache, KeyOf(name, page)) {
      if d.cache.worker.kind.Promotion? {
        PromotionLosesWrite(d, g, flat, name, page, data, i);
      } else {
        DemotionLosesWrite(d, g, flat, name, page, data, i);
      }
    } else {
      SafeWriteReadsBack(d, g, flat, name, page, data, i);
    }
  }

  // ---------- the trim of cache block 0 ----------

  /** Block 0 as a trim leaves it, in the disk `e`. */
  ghost predicate TrimmedTo(d: Disk, g: Addresses, e: Disk, left: seq<Page>) {
    e.cache == d.cache && e.ssd == Put(d.ssd, i => g.moveLba(0, i), left) && |left| <= 8
  }

  lemma TrimmedHashed(d: Disk, g: Addresses, flat: Flat, e: Disk, left: seq<Page>, k: Key, j: nat)
    requires Coherent(d, g, flat) && TrimmedTo(d, g, e, left) && Holds(d.cache, k, 0) && j < 8
    ensures Used(g, k) && SsdAt(d, g, 0, j) == Truth(flat, k, j)
    ensures PageOf(e, g, k, j) == if j < |left| then left[j] else Truth(flat, k, j)
  {
    SsdAfterMove(d, g, e, 0, left, 0, j);
    FindIs(d.cache, k, 0);
    HitPage(e, g, |d.cache.slots|, k, 0, j);
    assert SsdAt(d, g, 0, j) == Truth(flat, k, j);
  }

  /** A promoted block that is about to be hashed. */
  ghost predicate Arriving(s: State, k: Key, b: nat) {
    s.worker == Moving(Promotion, k, b, Moved(true))
  }

  lemma ArrivingTrue(d: Disk, g: Addresses, flat: Flat, k: Key, b: nat, j: nat)
    requires Coherent(d, g, flat) && Arriving(d.cache, k, b) && j < 8
    ensures Used(g, k) && b < |d.cache.slots| && d.cache.slots[b].key == k && SsdAt(d, g, b, j) == Truth(flat, k, j)
  {
    assert k == d.cache.queue[0];
  }

  lemma ArrivingLands(d: Disk, g: Addresses, k: Key, b: nat, j: nat)
    requires Inv(d.cache) && Sane(g, |d.cache.slots|) && Arriving(d.cache, k, b) && j < 8
    ensures PageOf(Land(d, g), g, k, j) == SsdAt(d, g, b, j)
  {
    LandPromotion(d, g, j);
    HitPage(Land(d, g), g, |d.cache.slots|, k, b, j);
  }

  lemma TrimmedArriving(d: Disk, g: Addresses, flat: Flat, e: Disk, left: seq<Page>, k: Key, j: nat)
    requires Coherent(d, g, flat) && TrimmedTo(d, g, e, left) && Arriving(d.cache, k, 0) && j < 8
    ensures Used(g, k) && d.cache.slots[0].key == k && SsdAt(d, g, 0, j) == Truth(flat, k, j)
    ensures PageOf(Land(e, g), g, k, j) == if j < |left| then left[j] else Truth(flat, k, j)
  {
    ArrivingTrue(d, g, flat, k, 0, j);
    SsdAfterMove(d, g, e, 0, left, 0, j);
    ArrivingLands(e, g, k, 0, j);
  }

  /** The page of block 0 that a trim leaves `left` in reads as before exactly if `left` has the same
      there: at once if block 0 is hashed, and after the landing if it is about to be. */
  lemma TrimmedPage(d: Disk, g: Addresses, flat: Flat, left: seq<Page>, done: bool, j: nat)
    requires Coherent(d, g, flat) && d.trims > 0 && |left| <= 8 && j < 8 && BlockZeroInUse(d.cache)
    ensures var e, k := DoTrim(d, g, left, done), d.cache.slots[0].key;
      && Used(g, k) && SsdAt(d, g, 0, j) == Truth(flat, k, j)
      && PageOf(if 0 in d.cache.hashed then e else Land(e, g), g, k, j)
           == if j < |left| then left[j] else Truth(flat, k, j)
  {
    if 0 in d.cache.hashed {
      TrimmedHashed(d, g, flat, DoTrim(d, g, left, done), left, d.cache.slots[0].key, j);
    } else {
      TrimmedArriving(d, g, flat, DoTrim(d, g, left, done), left, d.cache.worker.key, j);
    }
  }

  lemma TrimShows(d: Disk, g: Addresses, flat: Flat, left: seq<Page>, done: bool)
    requires Coherent(d, g, flat) && d.trims > 0 && |left| <= 8 && !TrimHarmless(d, g, left)
    ensures var e := DoTrim(d, g, left, done); !(ReadsTrue(e, g, flat) && ReadsTrue(Land(e, g), g, flat))
  {
    var j: nat :| j < |left| && j < 8 && left[j] != SsdAt(d, g, 0, j);
    var e, k := DoTrim(d, g, left, done), d.cache.slots[0].key;
    TrimmedPage(d, g, flat, left, done, j);
    if ReadsTrue(e, g, flat) && ReadsTrue(Land(e, g), g, flat) {
      PageOfTrue(if 0 in d.cache.hashed then e else Land(e, g), g, flat, k, j);
    }
  }

  /** A trim that acts shows in no read, at once or after the landing, exactly when the device leaves
      the contents of cache block 0 alone or nobody will read them. Which block was demoted does not
      matter. */
  lemma TrimHarmlessExactly(d: Disk, g: Addresses, flat: Flat, left: seq<Page>, done: bool)
    requires Coherent(d, g, flat) && d.trims > 0 && |left| <= 8
    ensures var e := DoTrim(d, g, left, done);
      ReadsTrue(e, g, flat) && ReadsTrue(Land(e, g), g, flat) <==> TrimHarmless(d, g, left)
  {
    var e := DoTrim(d, g, left, done);
    if TrimHarmless(d, g, left) {
      TrimKept(d, g, flat, left, done);
      CoherentReads(e, g, flat);
      LandReads(e, g, flat);
    } else {
      TrimShows(d, g, flat, left, done);
    }
  }

  /** The machine's actions that an event takes, after those of `acts`. */
  lemma EventActions(s: State, acts: seq<Action>, d: Disk, g: Addresses, e: Event) returns (all: seq<Action>)
    requires Inv(s) && Legal(s, acts) && Exec(s, acts) == d.cache && Possible(d, e)
    ensures Legal(s, all) && Exec(s, all) == Apply(d, g, e).cache
    ensures NoDiscard(acts) && !e.Discard? ==> NoDiscard(all)
  {
    all := acts;
    match e
    case Read(name, page, cnt) => if CheckPio(page, cnt) { all := Snoc(s, acts, Lookup(KeyOf(name, page))); }
    case Write(name, page, data) => if CheckPio(page, |data|) { all := WriteActions(s, acts, d, g, name, page, data); }
    case Discard(name, page, cnt) => if CheckPio(page, cnt) { all := Snoc(s, acts, Remove(KeyOf(name, page))); }
    case Work(a, _) => all := Snoc(s, acts, a);
    case TrimActs(_, _) =>
  }

  lemma WriteActions(s: State, acts: seq<Action>, d: Disk, g: Addresses, name: Name, page: nat, data: seq<Page>)
    returns (all: seq<Action>)
    requires Inv(s) && Legal(s, acts) && Exec(s, acts) == d.cache
    ensures Legal(s, all) && Exec(s, all) == DoWrite(d, g, name, page, data).cache
    ensures NoDiscard(acts) ==> NoDiscard(all)
  {
    var k, t := KeyOf(name, page), WriteLookup(d.cache, name, page, |data|);
    all := Snoc(s, acts, if Overwritable(page, |data|) then LookupInsert(k) else Lookup(k));
    if Hashed(t, k) { all := Snoc(s, all, SetDirty(Find(t, k).value)); }
  }

  lemma Snoc(s: State, acts: seq<Action>, a: Action) returns (all: seq<Action>)
    requires Inv(s) && Legal(s, acts) && Enabled(Exec(s, acts), a)
    ensures Legal(s, all) && Exec(s, all) == Next(Exec(s, acts), a)
    ensures NoDiscard(acts) && !a.Remove? ==> NoDiscard(all)
  {
    ExecSnoc(s, acts, a);
    all := acts + [a];
  }

  /** The cache of a run of events goes through a run of the machine, so that all of the machine's
      properties hold of it. */
  lemma {:induction false} RunActions(d: Disk, g: Addresses, es: seq<Event>) returns (acts: seq<Action>)
    requires Inv(d.cache) && AllPossible(d, g, es)
    ensures Legal(d.cache, acts) && Exec(d.cache, acts) == Ending(d, g, es).cache
    ensures (forall i :: 0 <= i < |es| ==> !es[i].Discard?) ==> NoDiscard(acts)
  {
    acts := [];
    if es != [] {
      var before := es[..|es| - 1];
      acts := RunActions(d, g, before);
      acts := EventActions(d.cache, acts, Ending(d, g, before), g, es[|es| - 1]);
    }
  }

  /** Without discards, cache block 0 is hashed whenever a trim is submitted: that the device leaves its
      contents alone is then the only thing that makes the trim harmless at once. */
  lemma TrimAimsAtUsedBlock(d: Disk, g: Addresses, es: seq<Event>)
    requires Inv(d.cache) && d.cache.worker.Idle? && AllPossible(d, g, es)
    requires forall i :: 0 <= i < |es| ==> !es[i].Discard?
    ensures Enabled(Ending(d, g, es).cache, Trim) ==> 0 in Ending(d, g, es).cache.hashed
  {
    var acts := RunActions(d, g, es);
    TrimHitsUsedBlock(d.cache, acts);
  }

  /** The trims that the run submitted, and those that it saw finished. */
  ghost function TrimsSubmitted(es: seq<Event>): nat {
    if es == [] then 0
    else TrimsSubmitted(es[..|es| - 1]) + if es[|es| - 1].Work? && es[|es| - 1].step.Trim? then 1 else 0
  }

  ghost function TrimsFinished(es: seq<Event>): nat {
    if es == [] then 0
    else TrimsFinished(es[..|es| - 1]) + if es[|es| - 1].TrimActs? && es[|es| - 1].done then 1 else 0
  }

  lemma TrimsStep(d: Disk, g: Addresses, e: Event)
    requires Inv(d.cache) && Possible(d, e)
    ensures Apply(d, g, e).trims + (if e.TrimActs? && e.done then 1 else 0)
         == d.trims + if e.Work? && e.step.Trim? then 1 else 0
  {
  }

  /** Every trim that was submitted is pending or has been finished, once each. */
  lemma {:induction false} TrimsBalance(d: Disk, g: Addresses, es: seq<Event>)
    requires Inv(d.cache) && AllPossible(d, g, es)
    ensures Ending(d, g, es).trims + TrimsFinished(es) == d.trims + TrimsSubmitted(es)
  {
    if es != [] {
      TrimsBalance(d, g, es[..|es| - 1]);
      TrimsStep(Ending(d, g, es[..|es| - 1]), g, es[|es| - 1]);
    }
  }

  // ---------- a failed writeback ----------

  /** Nobody writes to a page of `k`, and pages are of blocks in use. */
  ghost predicate Quiet(g: Addresses, e: Event, k: Key) {
    match e
    case Read(name, page, _) => Used(g, KeyOf(name, page))
    case Write(name, page, _) => Used(g, KeyOf(name, page)) && KeyOf(name, page) != k
    case _ => true
  }

  /** Nothing written to `k` is still missing from its file, nor will be. */
  ghost predicate Paid(g: Addresses, s: State, k: Key) {
    && Inv(s) && UsedKeys(g, s) && Used(g, k) && OriginCurrent(s, k)
    && (s.worker.Moving? && s.worker.kind.Promotion? ==> !s.slots[s.worker.block].dirty)
  }

  lemma PaidByLookup(g: Addresses, s: State, a: Action, k: Key)
    requires Paid(g, s, k) && Enabled(s, a) && (a.Lookup? || a.LookupInsert?) && Used(g, a.key)
    requires a.LookupInsert? ==> a.key != k
    ensures Paid(g, Next(s, a), k)
  {
    var t := Next(s, a);
    LookupKeepsUsed(g, s, a, a.key);
    forall b: nat | Holds(t, k, b) ensures Settled(t, b) {
      assert Holds(s, k, b);
    }
  }

  lemma PaidByAttempt(g: Addresses, s: State, k: Key)
    requires Paid(g, s, k) && s.worker.Trying?
    ensures Paid(g, Next(s, Attempt), k)
  {
    var t := Next(s, Attempt);
    AttemptFrame(s);
    forall b: nat | Holds(t, k, b) ensures Settled(t, b) {
      assert Holds(s, k, b);
    }
  }

  lemma PaidByComplete(g: Addresses, s: State, k: Key)
    requires Paid(g, s, k) && Enabled(s, Complete)
    ensures Paid(g, Next(s, Complete), k)
  {
    var t := Next(s, Complete);
    if s.worker.stage.ok && s.worker.kind.Demotion? { DemotionIs(s, s.worker.block); }
    assert s.worker.key == s.queue[0];
    forall b: nat | Holds(t, k, b) ensures Settled(t, b) {
      if b in s.hashed { assert Holds(s, k, b); }
    }
  }

  lemma PaidByRemove(g: Addresses, s: State, q: Key, k: Key)
    requires Paid(g, s, k) && Enabled(s, Remove(q))
    ensures Paid(g, Next(s, Remove(q)), k)
  {
    var t := Next(s, Remove(q));
    if Hashed(s, q) { RemoveIs(s, q, Find(s, q).value); }
    forall b: nat | Holds(t, k, b) ensures Settled(t, b) {
      assert Holds(s, k, b);
    }
  }

  lemma PaidByWorker(g: Addresses, s: State, a: Action, k: Key)
    requires Paid(g, s, k) && Enabled(s, a) && WorkerAction(a)
    ensures Paid(g, Next(s, a), k)
  {
    if a.Attempt? {
      PaidByAttempt(g, s, k);
    } else if a.Complete? {
      PaidByComplete(g, s, k);
    } else {
      var t := Next(s, a);
      forall b: nat | Holds(t, k, b) ensures Settled(t, b) {
        assert Holds(s, k, b);
      }
    }
  }

  ghost predicate SameFile(d: Disk, e: Disk, g: Addresses, k: Key) {
    forall j: nat :: j < 8 ==> OriginAt(e, g, k, j) == OriginAt(d, g, k, j)
  }

  lemma PaidByWrite(d: Disk, g: Addresses, name: Name, page: nat, data: seq<Page>, k: Key)
    requires Calm(d, g, k) && CheckPio(page, |data|) && Used(g, KeyOf(name, page)) && KeyOf(name, page) != k
    ensures Calm(DoWrite(d, g, name, page, data), g, k) && SameFile(d, DoWrite(d, g, name, page, data), g, k)
  {
    var q := KeyOf(name, page);
    var a := if Overwritable(page, |data|) then LookupInsert(q) else Lookup(q);
    var e, t := DoWrite(d, g, name, page, data), WriteLookup(d.cache, name, page, |data|);
    PaidByLookup(g, d.cache, a, k);
    SizesKept(d.cache, a);
    if Hashed(t, q) {
      PaidByMark(g, t, Find(t, q).value, q, k);
    } else {
      forall j: nat | j < 8 ensures OriginAt(e, g, k, j) == OriginAt(d, g, k, j) {
        OriginAfterWrite(d, g, e, name, page, data, k, j);
      }
    }
  }

  lemma PaidByMark(g: Addresses, s: State, b: nat, q: Key, k: Key)
    requires Paid(g, s, k) && Holds(s, q, b) && q != k
    ensures Paid(g, Next(s, SetDirty(b)), k)
    ensures |Next(s, SetDirty(b)).slots| == |s.slots| && Next(s, SetDirty(b)).worker == s.worker
  {
    var t := Next(s, SetDirty(b));
    forall c: nat | Holds(t, k, c) ensures Settled(t, c) {
      assert Holds(s, k, c);
    }
  }

  /** A copy is a whole block: eight pages, or what a failed store leaves. */
  ghost predicate BufSized(d: Disk) {
    d.cache.worker.Moving? && d.cache.worker.stage.Loaded? ==> |d.buf| == 8
  }

  lemma PaidByCopy(d: Disk, g: Addresses, ok: bool, left: seq<Page>, k: Key)
    requires Calm(d, g, k) && Enabled(d.cache, Store(ok)) && |left| <= 8
    ensures SameFile(d, DoWork(d, g, Store(ok), left), g, k)
  {
    var s, w, e := d.cache, d.cache.worker, DoWork(d, g, Store(ok), left);
    if w.kind.Writeback? {
      var q := s.slots[w.block].key;
      assert Holds(s, q, w.block) && Used(g, q) && q != k;
      forall j: nat | j < 8 ensures OriginAt(e, g, k, j) == OriginAt(d, g, k, j) {
        OriginAfterMove(d, g, e, q, if ok then d.buf else left, k, j);
      }
    }
  }

  ghost predicate Calm(d: Disk, g: Addresses, k: Key) {
    Paid(g, d.cache, k) && Sane(g, |d.cache.slots|) && BufSized(d)
  }

  lemma SizesKept(s: State, a: Action)
    requires Inv(s) && Enabled(s, a)
    ensures |Next(s, a).slots| == |s.slots|
    ensures !WorkerAction(a) ==> Next(s, a).worker == s.worker
  {
  }

  lemma QuietWork(d: Disk, g: Addresses, a: Action, left: seq<Page>, k: Key)
    requires Calm(d, g, k) && WorkerAction(a) && Enabled(d.cache, a) && |left| <= 8
    ensures Calm(DoWork(d, g, a, left), g, k) && SameFile(d, DoWork(d, g, a, left), g, k)
  {
    PaidByWorker(g, d.cache, a, k);
    SizesKept(d.cache, a);
    if a.Store? { PaidByCopy(d, g, a.ok, left, k); }
  }

  lemma QuietUser(d: Disk, g: Addresses, a: Action, k: Key)
    requires Calm(d, g, k) && Enabled(d.cache, a) && !WorkerAction(a) && Paid(g, Next(d.cache, a), k)
    ensures Calm(d.(cache := Next(d.cache, a)), g, k) && SameFile(d, d.(cache := Next(d.cache, a)), g, k)
  {
    SizesKept(d.cache, a);
  }

  /** No event leaves a page of `k` owing, or changes its file. */
  lemma QuietStep(d: Disk, g: Addresses, e: Event, k: Key)
    requires Calm(d, g, k) && Possible(d, e) && Quiet(g, e, k)
    ensures Calm(Apply(d, g, e), g, k) && SameFile(d, Apply(d, g, e), g, k)
  {
    match e
    case Read(name, page, cnt) =>
      PaidByLookup(g, d.cache, Lookup(KeyOf(name, page)), k);
      QuietUser(d, g, Lookup(KeyOf(name, page)), k);
    case Write(name, page, data) => if CheckPio(page, |data|) { PaidByWrite(d, g, name, page, data, k); }
    case Discard(name, page, cnt) =>
      if CheckPio(page, cnt) {
        PaidByRemove(g, d.cache, KeyOf(name, page), k);
        QuietUser(d, g, Remove(KeyOf(name, page)), k);
      }
    case Work(a, left) => QuietWork(d, g, a, left, k);
    case TrimActs(_, _) =>
  }

  ghost predicate AllQuiet(g: Addresses, es: seq<Event>, k: Key) {
    forall i :: 0 <= i < |es| ==> Quiet(g, es[i], k)
  }

  lemma {:induction false} QuietRun(d: Disk, g: Addresses, es: seq<Event>, k: Key)
    requires Calm(d, g, k) && AllPossible(d, g, es) && AllQuiet(g, es, k)
    ensures Calm(Ending(d, g, es), g, k) && SameFile(d, Ending(d, g, es), g, k)
  {
    if es != [] {
      QuietRun(d, g, es[..|es| - 1], k);
      QuietStep(Ending(d, g, es[..|es| - 1]), g, es[|es| - 1], k);
    }
  }

  lemma {:induction false} QuietTruth(g: Addresses, flat: Flat, es: seq<Event>, k: Key, j: nat)
    requires AllQuiet(g, es, k) && j < 8
    ensures Truth(FlatAfter(flat, es), k, j) == Truth(flat, k, j)
  {
    if es != [] {
      var before, e := es[..|es| - 1], es[|es| - 1];
      QuietTruth(g, flat, before, k, j);
      if e.Write? && InOneBlock(e.page, |e.data|) {
        AcceptedExactly(e.page, |e.data|);
        TruthAfterWrite(FlatAfter(flat, before), e.name, e.page, e.data, k, j);
      }
    }
  }


  /** A failed writeback of a marked block leaves it dirty, and so loses nothing. */
  lemma MarkedSurvives(d: Disk, g: Addresses, flat: Flat, es: seq<Event>, k: Key, j: nat)
    requires Coherent(d, g, flat) && AllPossible(d, g, es) && AllAllowed(d, g, es) && AllQuiet(g, es, k)
    requires Used(g, k) && j < 8
    ensures PageOf(Ending(d, g, es), g, k, j) == Truth(flat, k, j)
  {
    RunRefinesFlat(d, g, flat, es);
    CoherentReads(Ending(d, g, es), g, FlatAfter(flat, es));
    PageOfTrue(Ending(d, g, es), g, FlatAfter(flat, es), k, j);
    QuietTruth(g, flat, es, k, j);
  }

  /** A failed writeback of an unmarked block leaves it clean: from then on its pages are those of the
      file, whenever it is not cached. */
  lemma UnmarkedForgets(d: Disk, g: Addresses, e: Disk, es: seq<Event>, k: Key, j: nat)
    requires Calm(e, g, k) && e.origin == d.origin && j < 8
    requires AllPossible(e, g, es) && AllQuiet(g, es, k) && !Hashed(Ending(e, g, es).cache, k)
    ensures PageOf(Ending(e, g, es), g, k, j) == OriginAt(d, g, k, j)
  {
    QuietRun(e, g, es, k);
    UnhashedPage(Ending(e, g, es), g, |Ending(e, g, es).cache.slots|, k, j);
    assert OriginAt(Ending(e, g, es), g, k, j) == OriginAt(e, g, k, j);
  }

  lemma FailedIsCalm(d: Disk, g: Addresses, flat: Flat)
    requires Coherent(d, g, flat) && FailedWriteback(d.cache) && !d.cache.slots[d.cache.worker.block].dirty
    ensures Calm(d.(cache := Next(d.cache, Complete)), g, d.cache.slots[d.cache.worker.block].key)
  {
    var s, b := d.cache, d.cache.worker.block;
    var t, k := Next(s, Complete), s.slots[b].key;
    assert Holds(s, k, b) && Used(g, k);
    forall c: nat | Holds(t, k, c) ensures Settled(t, c) {
      assert Holds(s, k, c);
    }
  }

  /** A writeback whose transfer failed is about to complete. */
  ghost predicate FailedWriteback(s: State) {
    s.worker.Moving? && s.worker.kind.Writeback? && s.worker.stage == Moved(false) && s.worker.block < |s.slots|
  }

  /** Once the block of a failed writeback is no longer cached and nobody has written to it since, each
      of its pages reads as it should if and only if the block was marked dirty during the writeback or
      its file held that page anyway. Until the block is gone its reads are right in any case. */
  lemma FailedWritebackExactly(d: Disk, g: Addresses, flat: Flat, e: Disk, k: Key, es: seq<Event>, j: nat)
    requires Coherent(d, g, flat) && FailedWriteback(d.cache) && e == DoWork(d, g, Complete, [])
    requires AllPossible(e, g, es) && AllAllowed(e, g, es) && AllQuiet(g, es, k) && j < 8
    requires k == d.cache.slots[d.cache.worker.block].key && !Hashed(Ending(e, g, es).cache, k)
    ensures ReadsTrue(e, g, flat)
    ensures PageOf(Ending(e, g, es), g, k, j) == Truth(flat, k, j)
       <==> d.cache.slots[d.cache.worker.block].dirty || OriginAt(d, g, k, j) == Truth(flat, k, j)
  {
    var s, b := d.cache, d.cache.worker.block;
    assert Holds(s, k, b) && Used(g, k);
    FailedReads(d, g, flat);
    if s.slots[b].dirty {
      CompleteWritebackKept(d, g, flat);
      MarkedSurvives(e, g, flat, es, k, j);
    } else {
      FailedIsCalm(d, g, flat);
      UnmarkedForgets(d, g, e, es, k, j);
    }
  }

  // ---------- pages beyond 2^20 ----------

  /** Over a cache that holds neither key, a page written to the file is read back through another
      page number exactly when the two agree modulo 2^20. */
  lemma PagesCollideExactly(d: Disk, blockSize: nat, used: iset<Key>, name: Name, page: nat, other: nat, content: Page)
    requires Inv(d.cache) && blockSize > 0
    requires !Hashed(d.cache, KeyOf(name, page)) && !Hashed(d.cache, KeyOf(name, other))
    ensures var g := CodeAddresses(blockSize, used);
      PageAt(DoWrite(d, g, name, page, [content]), g, name, other) ==
        if other % PAGES == page % PAGES then content else PageAt(d, g, name, other)
  {
    var g := CodeAddresses(blockSize, used);
    WriteMisses(d.cache, name, page, 1);
    var e := DoWrite(d, g, name, page, [content]);
    assert forall k, b: nat :: Holds(e.cache, k, b) ==> Holds(d.cache, k, b);
    OffsetsCollide(page, other);
    var at := (i: nat) => (name, g.userOff(page, i));
    if other % PAGES == page % PAGES {
      PutGet(d.origin, at, [content], 0);
    } else {
      PutOther(d.origin, at, [content], (name, g.userOff(other, 0)));
    }
  }
}
