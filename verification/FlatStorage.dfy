/** Requests and the worker's copies acting on the contents of the SSD and of the files, and what
    makes the cache indistinguishable from flat storage (lib/ssd_cache_target.c). */
module FlatStorage {
  import opened Works
  import opened CacheMachine
  import opened CacheInvariant
  import opened Geometry

  type Page = seq<bv8>

  const BLANK: Page := []

  /** A page as the 4 KB that a user gets: a blank page is zeros. */
  function Fit(p: Page): (r: seq<bv8>)
    ensures |r| == PAGE_SIZE
    ensures |p| == PAGE_SIZE ==> r == p
    ensures forall j :: 0 <= j < PAGE_SIZE ==> r[j] == if j < |p| then p[j] else 0
  {
    seq(PAGE_SIZE, j requires 0 <= j => if j < |p| then p[j] else 0)
  }

  function FitAll(pages: seq<Page>): (r: seq<seq<bv8>>)
    ensures |r| == |pages| && forall i :: 0 <= i < |r| ==> r[i] == Fit(pages[i])
  {
    seq(|pages|, i requires 0 <= i < |pages| => Fit(pages[i]))
  }

  /** What a place holds; a place never written holds a blank page. */
  function Get<A>(m: map<A, Page>, a: A): Page {
    if a in m then m[a] else BLANK
  }

  /** Writes `data` page by page, the `i`-th to `at(i)`. */
  function Put<A>(m: map<A, Page>, at: nat -> A, data: seq<Page>): map<A, Page> {
    if data == [] then m
    else Put(m, at, data[..|data| - 1])[at(|data| - 1) := data[|data| - 1]]
  }

  lemma {:induction false} PutGet<A>(m: map<A, Page>, at: nat -> A, data: seq<Page>, i: nat)
    requires i < |data| && forall j: nat :: j < |data| && j != i ==> at(j) != at(i)
    ensures Get(Put(m, at, data), at(i)) == data[i]
  {
    if i < |data| - 1 { PutGet(m, at, data[..|data| - 1], i); }
  }

  lemma {:induction false} PutOther<A>(m: map<A, Page>, at: nat -> A, data: seq<Page>, a: A)
    requires forall j: nat :: j < |data| ==> at(j) != a
    ensures Get(Put(m, at, data), a) == Get(m, a)
  {
    if data != [] { PutOther(m, at, data[..|data| - 1], a); }
  }

  // ---------- addresses ----------

  /** The address arithmetic of requests and of the worker: LBA of a page of a cache block, and file
      offset of a page of a file. */
  datatype Addresses = Addresses(
    userLba: (nat, nat, nat) -> nat,
    moveLba: (nat, nat) -> nat,
    userOff: (nat, nat) -> nat,
    moveOff: (nat, nat) -> nat,
    ghost used: iset<Key>)  // the file blocks that users ask for

  /** The number of 4 KB pages, and of 32 KB blocks, that 32-bit offsets tell apart. */
  const PAGES: nat := 0x10_0000
  const BLOCKS: nat := 0x2_0000

  /** Two pages in use of one file lie at the same offset. */
  ghost predicate SamePlace(g: Addresses, p: Key, j: nat, q: Key, k: nat) {
    && p in g.used && q in g.used && p.name == q.name && j < 8 && k < 8
    && g.moveOff(p.page, j) == g.moveOff(q.page, k)
  }

  /** Both sides mean the same place by the same page, and distinct pages in use have distinct places. */
  ghost predicate Sane(g: Addresses, n: nat) {
    && (forall c: nat, p: nat, i: nat :: c < n && p % 8 + i < 8 ==> g.userLba(c, p, i) == g.moveLba(c, p % 8 + i))
    && (forall p: nat, i: nat :: p % 8 + i < 8 ==> g.userOff(p, i) == g.moveOff(p / 8, p % 8 + i))
    && (forall c: nat, j: nat, d: nat, k: nat ::
          c < n && d < n && j < 8 && k < 8 && g.moveLba(c, j) == g.moveLba(d, k) ==> c == d && j == k)
    && (forall p: Key, j: nat, q: Key, k: nat ::
          SamePlace(g, p, j, q, k) ==> p.page == q.page && j == k)
  }

  lemma DistinctPlaces(g: Addresses, n: nat, p: Key, q: Key)
    requires Sane(g, n) && p in g.used && q in g.used && p.name == q.name
    ensures forall j: nat, k: nat :: j < 8 && k < 8 && g.moveOff(p.page, j) == g.moveOff(q.page, k) ==>
      p.page == q.page && j == k
  {
    forall j: nat, k: nat | j < 8 && k < 8 && g.moveOff(p.page, j) == g.moveOff(q.page, k)
      ensures p.page == q.page && j == k
    {
      assert SamePlace(g, p, j, q, k);
    }
  }

  // ---------- the disk ----------

  datatype Disk = Disk(
    cache: State,
    ssd: map<nat, Page>,
    origin: map<(Name, nat), Page>,
    buf: seq<Page>,
    trims: nat)  // trims submitted and not known to be over

  type Flat = map<(Name, nat), Page>

  datatype Event =
    | Read(name: Name, page: nat, cnt: nat)
    | Write(name: Name, page: nat, data: seq<Page>)
    | Discard(name: Name, page: nat, cnt: nat)
    | Work(step: Action, left: seq<Page>)
    | TrimActs(left: seq<Page>, done: bool)

  predicate Overwritable(page: nat, cnt: nat) {
    cnt == 8 && page % 8 == 0
  }

  function KeyOf(name: Name, page: nat): Key {
    Key(name, page / 8)
  }

  /** A request is accepted exactly if all its pages are of one key. */
  lemma AcceptedPages(name: Name, page: nat, cnt: nat)
    ensures CheckPio(page, cnt) <==> forall p: nat :: page <= p < page + cnt ==> KeyOf(name, p) == KeyOf(name, page)
  {
    if !CheckPio(page, cnt) {
      assert KeyOf(name, page + (8 - page % 8)) != KeyOf(name, page);
    }
  }

  /** A request overwrites its block exactly if its pages are all the pages of one key. */
  lemma OverwritableExactly(name: Name, page: nat, cnt: nat)
    requires cnt > 0
    ensures Overwritable(page, cnt) <==>
      forall p: nat :: page <= p < page + cnt <==> KeyOf(name, p) == KeyOf(name, page)
  {
    var first := 8 * (page / 8);
    if !Overwritable(page, cnt) {
      if page % 8 != 0 {
        assert KeyOf(name, first) == KeyOf(name, page);
      } else if cnt < 8 {
        assert KeyOf(name, page + cnt) == KeyOf(name, page);
      } else {
        assert KeyOf(name, page + 8) != KeyOf(name, page);
      }
    }
  }

  ghost function SsdAt(d: Disk, g: Addresses, b: nat, j: nat): Page {
    Get(d.ssd, g.moveLba(b, j))
  }

  ghost function OriginAt(d: Disk, g: Addresses, k: Key, j: nat): Page {
    Get(d.origin, (k.name, g.moveOff(k.page, j)))
  }

  ghost function Truth(flat: Flat, k: Key, j: nat): Page {
    Get(flat, (k.name, 8 * k.page + j))
  }

  function CachePages(ssd: map<nat, Page>, g: Addresses, b: nat, page: nat, cnt: nat): seq<Page> {
    seq(cnt, i requires 0 <= i => Get(ssd, g.userLba(b, page, i)))
  }

  function FilePages(origin: map<(Name, nat), Page>, g: Addresses, name: Name, page: nat, cnt: nat): seq<Page> {
    seq(cnt, i requires 0 <= i => Get(origin, (name, g.userOff(page, i))))
  }

  /** What a read request returns: from the SSD on a hit, from the file on a miss. */
  ghost function ReadPages(d: Disk, g: Addresses, name: Name, page: nat, cnt: nat): seq<Page> {
    match Find(d.cache, KeyOf(name, page))
    case Some(b) => CachePages(d.ssd, g, b, page, cnt)
    case None => FilePages(d.origin, g, name, page, cnt)
  }

  ghost function FlatPages(flat: Flat, name: Name, page: nat, cnt: nat): seq<Page> {
    seq(cnt, i requires 0 <= i => Get(flat, (name, page + i)))
  }

  ghost function FlatWrite(flat: Flat, name: Name, page: nat, data: seq<Page>): Flat {
    Put(flat, i => (name, page + i), data)
  }

  /** The lookup that a write request does; only a write of a whole block may insert. */
  ghost function WriteLookup(s: State, name: Name, page: nat, cnt: nat): State
    requires Inv(s)
  {
    Next(s, if Overwritable(page, cnt) then LookupInsert(KeyOf(name, page)) else Lookup(KeyOf(name, page)))
  }

  ghost function DoWrite(d: Disk, g: Addresses, name: Name, page: nat, data: seq<Page>): (e: Disk)
    requires Inv(d.cache)
    ensures Inv(e.cache)
  {
    var t := WriteLookup(d.cache, name, page, |data|);
    match Find(t, KeyOf(name, page))
    case Some(b) =>
      d.(cache := Next(t, SetDirty(b)), ssd := Put(d.ssd, i => g.userLba(b, page, i), data))
    case None =>
      d.(cache := t, origin := Put(d.origin, i => (name, g.userOff(page, i)), data))
  }

  function BlockPages<A>(m: map<A, Page>, at: nat -> A): seq<Page> {
    seq(8, i requires 0 <= i => Get(m, at(i)))
  }

  /** A step of the worker. `left` is what a failed store leaves in its block. A trim is submitted and
      not waited for, so it only becomes pending. */
  ghost function DoWork(d: Disk, g: Addresses, a: Action, left: seq<Page>): (e: Disk)
    requires Inv(d.cache) && Enabled(d.cache, a)
    ensures Inv(e.cache)
  {
    var w := d.cache.worker;
    var r := d.(cache := Next(d.cache, a));
    match a
    case Load(ok) =>
      if !ok then r
      else if w.kind.Promotion?
      then r.(buf := BlockPages(d.origin, j => (w.key.name, g.moveOff(w.key.page, j))))
      else r.(buf := BlockPages(d.ssd, j => g.moveLba(w.block, j)))
    case Store(ok) =>
      if w.kind.Promotion?
      then r.(ssd := Put(d.ssd, j => g.moveLba(w.block, j), if ok then d.buf else left))
      else
        var k := d.cache.slots[w.block].key;
        r.(origin := Put(d.origin, j => (k.name, g.moveOff(k.page, j)), if ok then d.buf else left))
    case Trim => r.(trims := d.trims + 1)
    case _ => r
  }

  /** The device carries out a pending trim, or a part of it, and leaves `left`. Every trim is aimed at
      cache block 0, whatever block was demoted. */
  ghost function DoTrim(d: Disk, g: Addresses, left: seq<Page>, done: bool): Disk
    requires d.trims > 0
  {
    d.(ssd := Put(d.ssd, j => g.moveLba(0, j), left), trims := if done then d.trims - 1 else d.trims)
  }

  // ---------- what holds between the disk and flat storage ----------

  ghost predicate Used(g: Addresses, k: Key) {
    k in g.used
  }

  ghost predicate UsedKeys(g: Addresses, s: State) {
    && (forall b: nat :: b in s.hashed && b < |s.slots| ==> Used(g, s.slots[b].key))
    && (forall i :: 0 <= i < |s.queue| ==> Used(g, s.queue[i]))
  }

  /** A cached block holds the truth. */
  ghost predicate CacheTrue(d: Disk, g: Addresses, flat: Flat) {
    forall b: nat, j: nat :: b in d.cache.hashed && b < |d.cache.slots| && j < 8 ==>
      SsdAt(d, g, b, j) == Truth(flat, d.cache.slots[b].key, j)
  }

  /** Nothing written to the block is still missing from the file. */
  ghost predicate Settled(s: State, b: nat)
    requires b < |s.slots|
  {
    !s.slots[b].dirty && !(InFlight(s, b) && s.worker.kind.Writeback? && s.worker.stage != Moved(true))
  }

  ghost predicate OriginCurrent(s: State, k: Key) {
    forall b: nat :: Holds(s, k, b) ==> Settled(s, b)
  }

  /** The file holds the truth about a block that is not cached, or clean and not being written back. */
  ghost predicate OriginTrue(d: Disk, g: Addresses, flat: Flat) {
    forall k: Key, j: nat :: Used(g, k) && j < 8 && OriginCurrent(d.cache, k) ==>
      OriginAt(d, g, k, j) == Truth(flat, k, j)
  }

  ghost predicate BufTrue(buf: seq<Page>, flat: Flat, k: Key) {
    |buf| == 8 && forall j: nat :: j < 8 ==> buf[j] == Truth(flat, k, j)
  }

  /** What the worker has under way holds the truth. */
  ghost predicate WorkerTrue(d: Disk, g: Addresses, flat: Flat) {
    var w := d.cache.worker;
    w.Moving? && w.block < |d.cache.slots| ==>
      match w.kind
      case Promotion =>
        && (w.stage.Loaded? ==> BufTrue(d.buf, flat, w.key))
        && (w.stage == Moved(true) ==>
              forall j: nat :: j < 8 ==> SsdAt(d, g, w.block, j) == Truth(flat, w.key, j))
      case Demotion => !d.cache.slots[w.block].dirty && w.stage != Moved(false)
      case Writeback =>
        && (w.stage.Loaded? ==> |d.buf| == 8)
        && (w.stage.Loaded? && !d.cache.slots[w.block].dirty ==>
              BufTrue(d.buf, flat, d.cache.slots[w.block].key))
  }

  ghost predicate Coherent(d: Disk, g: Addresses, flat: Flat) {
    && Inv(d.cache) && Sane(g, |d.cache.slots|) && UsedKeys(g, d.cache)
    && CacheTrue(d, g, flat) && OriginTrue(d, g, flat) && WorkerTrue(d, g, flat)
  }

  // ---------- how a write changes the truth and the files ----------

  /** Flat storage gives back what was last written, page by page, and keeps the rest. */
  lemma FlatReadsBack(flat: Flat, name: Name, page: nat, data: seq<Page>, name': Name, page': nat, cnt: nat, i: nat)
    requires i < cnt
    ensures |FlatPages(flat, name', page', cnt)| == cnt
    ensures FlatPages(FlatWrite(flat, name, page, data), name', page', cnt)[i] ==
      if name' == name && page <= page' + i < page + |data| then data[page' + i - page]
      else FlatPages(flat, name', page', cnt)[i]
  {
    var at := (j: nat) => (name, page + j);
    if name' == name && page <= page' + i < page + |data| {
      PutGet(flat, at, data, page' + i - page);
    } else {
      PutOther(flat, at, data, (name', page' + i));
    }
  }

  lemma TruthAfterWrite(flat: Flat, name: Name, page: nat, data: seq<Page>, k: Key, j: nat)
    requires CheckPio(page, |data|) && j < 8
    ensures Truth(FlatWrite(flat, name, page, data), k, j) ==
      if k == KeyOf(name, page) && page % 8 <= j < page % 8 + |data| then data[j - page % 8]
      else Truth(flat, k, j)
  {
    var at := (i: nat) => (name, page + i);
    if k == KeyOf(name, page) && page % 8 <= j < page % 8 + |data| {
      assert at(j - page % 8) == (k.name, 8 * k.page + j);
      PutGet(flat, at, data, j - page % 8);
    } else {
      PutOther(flat, at, data, (k.name, 8 * k.page + j));
    }
  }

  /** `data` written to the pages from page `j0` of `q` on. */
  lemma OriginAfterPut(g: Addresses, n: nat, m: map<(Name, nat), Page>, at: nat -> (Name, nat), data: seq<Page>,
                       q: Key, j0: nat, k: Key, j: nat)
    requires Sane(g, n) && Used(g, q) && Used(g, k) && j < 8 && j0 + |data| <= 8
    requires forall i: nat :: i < |data| ==> at(i) == (q.name, g.moveOff(q.page, j0 + i))
    ensures Get(Put(m, at, data), (k.name, g.moveOff(k.page, j))) ==
      if k == q && j0 <= j < j0 + |data| then data[j - j0] else Get(m, (k.name, g.moveOff(k.page, j)))
  {
    DistinctPlaces(g, n, q, q);
    if k.name == q.name { DistinctPlaces(g, n, q, k); }
    if k == q && j0 <= j < j0 + |data| {
      PutGet(m, at, data, j - j0);
    } else {
      PutOther(m, at, data, (k.name, g.moveOff(k.page, j)));
    }
  }

  lemma OriginAfterWrite(d: Disk, g: Addresses, e: Disk, name: Name, page: nat, data: seq<Page>, k: Key, j: nat)
    requires Sane(g, |d.cache.slots|) && CheckPio(page, |data|) && Used(g, KeyOf(name, page)) && Used(g, k) && j < 8
    requires e.origin == Put(d.origin, i => (name, g.userOff(page, i)), data)
    ensures OriginAt(e, g, k, j) ==
      if k == KeyOf(name, page) && page % 8 <= j < page % 8 + |data| then data[j - page % 8]
      else OriginAt(d, g, k, j)
  {
    var at, q, j0 := (i: nat) => (name, g.userOff(page, i)), KeyOf(name, page), page % 8;
    assert forall i: nat :: i < |data| ==> at(i) == (q.name, g.moveOff(q.page, j0 + i));
    OriginAfterPut(g, |d.cache.slots|, d.origin, at, data, q, j0, k, j);
  }

  lemma SsdAfterPut(g: Addresses, n: nat, m: map<nat, Page>, at: nat -> nat, data: seq<Page>,
                    b: nat, j0: nat, c: nat, j: nat)
    requires Sane(g, n) && b < n && c < n && j < 8 && j0 + |data| <= 8
    requires forall i: nat :: i < |data| ==> at(i) == g.moveLba(b, j0 + i)
    ensures Get(Put(m, at, data), g.moveLba(c, j)) ==
      if c == b && j0 <= j < j0 + |data| then data[j - j0] else Get(m, g.moveLba(c, j))
  {
    if c == b && j0 <= j < j0 + |data| {
      PutGet(m, at, data, j - j0);
    } else {
      PutOther(m, at, data, g.moveLba(c, j));
    }
  }

  lemma SsdAfterWrite(d: Disk, g: Addresses, e: Disk, b: nat, page: nat, data: seq<Page>, c: nat, j: nat)
    requires Sane(g, |d.cache.slots|) && CheckPio(page, |data|) && j < 8
    requires b < |d.cache.slots| && c < |d.cache.slots|
    requires e.ssd == Put(d.ssd, i => g.userLba(b, page, i), data)
    ensures SsdAt(e, g, c, j) ==
      if c == b && page % 8 <= j < page % 8 + |data| then data[j - page % 8] else SsdAt(d, g, c, j)
  {
    var at, j0 := (i: nat) => g.userLba(b, page, i), page % 8;
    assert forall i: nat :: i < |data| ==> at(i) == g.moveLba(b, j0 + i);
    SsdAfterPut(g, |d.cache.slots|, d.ssd, at, data, b, j0, c, j);
  }
}
