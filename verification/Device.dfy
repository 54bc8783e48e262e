/** The NVMe device as blocks addressed by LBA, under the pages that `FlatStorage` moves as a whole:
    what the transfers of requests and of the worker do to the blocks (lib/spdk.c). */
module Devices {
  import opened Sequences
  import opened Works
  import opened Hash
  import opened Geometry
  import opened ScatterGather
  import opened Pios
  import opened CacheMachine
  import opened CacheInvariant
  import opened FlatStorage
  import opened Coherence

  type Block = seq<bv8>
  type Device = map<nat, Block>

  /** The bytes of `num` blocks from `lba` on. */
  function Range(dev: Device, lba: nat, num: nat): seq<bv8> {
    if num == 0 then [] else Range(dev, lba, num - 1) + Get(dev, lba + num - 1)
  }

  /** Bytes cut into blocks. */
  function Cut(bytes: seq<bv8>, blockSize: nat): seq<Block>
    requires blockSize > 0
  {
    if |bytes| < blockSize then [] else [bytes[..blockSize]] + Cut(bytes[blockSize..], blockSize)
  }

  function Flatten(blocks: seq<Block>): seq<bv8> {
    if blocks == [] then [] else Flatten(blocks[..|blocks| - 1]) + blocks[|blocks| - 1]
  }

  function From(lba: nat): nat -> nat {
    (i: nat) => lba + i
  }

  /** A transfer to the device: consecutive blocks from `lba` on. */
  function WriteRange(dev: Device, lba: nat, bytes: seq<bv8>, blockSize: nat): Device
    requires blockSize > 0
  {
    Put<nat>(dev, From(lba), Cut(bytes, blockSize))
  }

  // ---------- blocks written and read again ----------

  lemma {:induction false} FlattenConcat(a: seq<Block>, b: seq<Block>)
    ensures Flatten(a + b) == Flatten(a) + Flatten(b)
  {
    if b == [] {
      assert a + b == a;
    } else {
      assert (a + b)[..|a + b| - 1] == a + b[..|b| - 1];
      FlattenConcat(a, b[..|b| - 1]);
    }
  }

  lemma {:induction false} CutFlatten(bytes: seq<bv8>, blockSize: nat, p: nat)
    requires blockSize > 0 && |bytes| == p * blockSize
    ensures |Cut(bytes, blockSize)| == p && Flatten(Cut(bytes, blockSize)) == bytes
  {
    if p > 0 {
      OneMore(p, blockSize);
      CutFlatten(bytes[blockSize..], blockSize, p - 1);
      FlattenConcat([bytes[..blockSize]], Cut(bytes[blockSize..], blockSize));
      assert Flatten([bytes[..blockSize]]) == bytes[..blockSize];
    }
  }

  lemma {:induction false} CutConcat(a: seq<bv8>, b: seq<bv8>, blockSize: nat, p: nat)
    requires blockSize > 0 && |a| == p * blockSize
    ensures Cut(a + b, blockSize) == Cut(a, blockSize) + Cut(b, blockSize)
  {
    if p == 0 {
      assert a + b == b;
    } else {
      OneMore(p, blockSize);
      assert (a + b)[..blockSize] == a[..blockSize] && (a + b)[blockSize..] == a[blockSize..] + b;
      CutConcat(a[blockSize..], b, blockSize, p - 1);
    }
  }

  /** Blocks `s` to `s + m` of a transfer read back. */
  lemma {:induction false} RangeWritten(dev: Device, lba: nat, blocks: seq<Block>, s: nat, m: nat)
    requires s + m <= |blocks|
    ensures Range(Put<nat>(dev, From(lba), blocks), lba + s, m) == Flatten(blocks[s..s + m])
  {
    if m > 0 {
      RangeWritten(dev, lba, blocks, s, m - 1);
      PutGet<nat>(dev, From(lba), blocks, s + m - 1);
      assert blocks[s..s + m][..m - 1] == blocks[s..s + (m - 1)];
    }
  }

  lemma {:induction false} RangeOther(dev: Device, lba: nat, blocks: seq<Block>, from: nat, m: nat)
    requires from + m <= lba || lba + |blocks| <= from
    ensures Range(Put<nat>(dev, From(lba), blocks), from, m) == Range(dev, from, m)
  {
    if m > 0 {
      var dev', last := Put<nat>(dev, From(lba), blocks), from + m - 1;
      RangeOther(dev, lba, blocks, from, m - 1);
      PutOther<nat>(dev, From(lba), blocks, last);
      assert Range(dev', from, m) == Range(dev', from, m - 1) + Get(dev', last);
      assert Range(dev, from, m) == Range(dev, from, m - 1) + Get(dev, last);
    }
  }

  // ---------- pages on the device ----------

  /** The number of blocks of a page. */
  function PerPage(blockSize: nat): nat
    requires blockSize > 0
  {
    Pow2(PageShift(blockSize))
  }

  /** The blocks of every page slot hold the page that the map has there. */
  ghost predicate Shows(dev: Device, ssd: map<nat, Page>, blockSize: nat, n: nat)
    requires blockSize > 0
  {
    forall c: nat, j: nat :: c < n && j < 8 ==> ShowsSlot(dev, ssd, blockSize, c, j)
  }

  ghost predicate ShowsSlot(dev: Device, ssd: map<nat, Page>, blockSize: nat, c: nat, j: nat)
    requires blockSize > 0
  {
    Range(dev, MoveLba(blockSize, c, j), PerPage(blockSize)) == Fit(Get(ssd, MoveLba(blockSize, c, j)))
  }

  ghost predicate WholePages(data: seq<Page>) {
    forall i :: 0 <= i < |data| ==> |data[i]| == PAGE_SIZE
  }

  lemma {:induction false} CutPages(data: seq<Page>, blockSize: nat, p: nat)
    requires blockSize > 0 && p * blockSize == PAGE_SIZE && WholePages(data)
    ensures |Cut(Concat(data), blockSize)| == |data| * p
  {
    if data != [] {
      CutConcat(data[0], Concat(data[1..]), blockSize, p);
      CutFlatten(data[0], blockSize, p);
      CutPages(data[1..], blockSize, p);
      OneMore(|data|, p);
    }
  }

  lemma {:induction false} ConcatConcat(a: seq<Page>, b: seq<Page>)
    ensures Concat(a + b) == Concat(a) + Concat(b)
  {
    if a == [] {
      assert a + b == b;
    } else {
      assert (a + b)[1..] == a[1..] + b;
      ConcatConcat(a[1..], b);
    }
  }

  /** The blocks of the pages before page `i`, those of page `i`, and the others. */
  lemma CutAround(data: seq<Page>, blockSize: nat, p: nat, i: nat)
    requires blockSize > 0 && p * blockSize == PAGE_SIZE && WholePages(data) && i < |data|
    ensures Cut(Concat(data), blockSize) ==
      Cut(Concat(data[..i]), blockSize) + Cut(data[i], blockSize) + Cut(Concat(data[i + 1..]), blockSize)
  {
    var a, b := data[..i], data[i + 1..];
    assert data == a + ([data[i]] + b);
    ConcatConcat(a, [data[i]] + b);
    assert Concat([data[i]] + b) == data[i] + Concat(b) by { assert ([data[i]] + b)[1..] == b; }
    ConcatLength(a);
    assert |Concat(a)| == (i * p) * blockSize by { assert (i * p) * blockSize == i * (p * blockSize); }
    CutConcat(Concat(a), data[i] + Concat(b), blockSize, i * p);
    CutConcat(data[i], Concat(b), blockSize, p);
  }

  /** Blocks `i * p` to `i * p + p` of a transfer of pages are those of page `i`. */
  lemma BlocksOfPage(data: seq<Page>, blockSize: nat, p: nat, i: nat, at: nat)
    requires blockSize > 0 && p * blockSize == PAGE_SIZE && WholePages(data) && i < |data| && at == i * p
    ensures at + p <= |Cut(Concat(data), blockSize)|
    ensures Flatten(Cut(Concat(data), blockSize)[at..at + p]) == data[i]
  {
    CutAround(data, blockSize, p, i);
    CutPages(data[..i], blockSize, p);
    CutFlatten(data[i], blockSize, p);
    assert Cut(Concat(data), blockSize)[at..at + p] == Cut(data[i], blockSize);
  }

  // ---------- transfers of pages ----------

  /** The first LBA of each page of a request. */
  function Lbas(blockSize: nat, b: nat, page: nat): nat -> nat
    requires blockSize > 0
  {
    (i: nat) => UserLba(blockSize, b, page, i)
  }

  /** A write request's transfer, on the blocks and on the pages: it moves `cnt << block_per_page_shift`
      blocks, and the device then shows the pages as written, and all others as before. */
  lemma WriteShows(dev: Device, ssd: map<nat, Page>, blockSize: nat, n: nat, b: nat, page: nat, data: seq<Page>)
    requires 0 < blockSize <= PAGE_SIZE && IsPow2(blockSize) && b < n <= CACHE_BLOCK_NUMBER
    requires CheckPio(page, |data|) && WholePages(data) && Shows(dev, ssd, blockSize, n)
    ensures |Cut(Concat(data), blockSize)| == |data| * PerPage(blockSize)
    ensures Shows(WriteRange(dev, TargetBlock(blockSize, b, page), Concat(data), blockSize),
                  Put<nat>(ssd, Lbas(blockSize, b, page), data), blockSize, n)
  {
    PageFillsBlocks(blockSize);
    CutPages(data, blockSize, PerPage(blockSize));
    var dev' := WriteRange(dev, TargetBlock(blockSize, b, page), Concat(data), blockSize);
    var ssd' := Put<nat>(ssd, Lbas(blockSize, b, page), data);
    forall c: nat, j: nat | c < n && j < 8 ensures ShowsSlot(dev', ssd', blockSize, c, j) {
      assert ShowsSlot(dev, ssd, blockSize, c, j);
      SlotAfter(dev, ssd, blockSize, b, page, data, c, j, page % 8);
    }
  }

  lemma SlotAfter(dev: Device, ssd: map<nat, Page>, blockSize: nat, b: nat, page: nat, data: seq<Page>,
                  c: nat, j: nat, j0: nat)
    requires 0 < blockSize <= PAGE_SIZE && IsPow2(blockSize) && b < CACHE_BLOCK_NUMBER && c < CACHE_BLOCK_NUMBER
    requires CheckPio(page, |data|) && WholePages(data) && j < 8 && ShowsSlot(dev, ssd, blockSize, c, j)
    requires j0 == page % 8
    ensures ShowsSlot(WriteRange(dev, TargetBlock(blockSize, b, page), Concat(data), blockSize),
                      Put<nat>(ssd, Lbas(blockSize, b, page), data), blockSize, c, j)
  {
    if c == b && j0 <= j < j0 + |data| {
      SlotWritten(dev, ssd, blockSize, b, page, data, j - j0, j);
    } else {
      SlotKept(dev, ssd, blockSize, b, page, data, c, j);
    }
  }

  lemma SlotWritten(dev: Device, ssd: map<nat, Page>, blockSize: nat, b: nat, page: nat, data: seq<Page>,
                    i: nat, j: nat)
    requires 0 < blockSize <= PAGE_SIZE && IsPow2(blockSize) && b < CACHE_BLOCK_NUMBER
    requires CheckPio(page, |data|) && WholePages(data) && i < |data| && j == page % 8 + i
    ensures ShowsSlot(WriteRange(dev, TargetBlock(blockSize, b, page), Concat(data), blockSize),
                      Put<nat>(ssd, Lbas(blockSize, b, page), data), blockSize, b, j)
  {
    BlocksWritten(dev, blockSize, b, page, data, i, j, PerPage(blockSize), MoveLba(blockSize, b, j));
    LbaAgree(blockSize, b, page, i);
    LbasDiffer(blockSize, b, page, |data|);
    PutGet<nat>(ssd, Lbas(blockSize, b, page), data, i);
  }

  lemma BlocksWritten(dev: Device, blockSize: nat, b: nat, page: nat, data: seq<Page>, i: nat, j: nat,
                      p: nat, slot: nat)
    requires 0 < blockSize <= PAGE_SIZE && IsPow2(blockSize) && b < CACHE_BLOCK_NUMBER
    requires CheckPio(page, |data|) && WholePages(data) && i < |data| && j == page % 8 + i
    requires p == PerPage(blockSize) && slot == MoveLba(blockSize, b, j)
    ensures Range(WriteRange(dev, TargetBlock(blockSize, b, page), Concat(data), blockSize), slot, p) == data[i]
  {
    PageBytes(blockSize, p);
    LbaAgree(blockSize, b, page, i);
    RangeOfPage(dev, TargetBlock(blockSize, b, page), data, blockSize, p, i, i * p, slot);
  }

  lemma PageBytes(blockSize: nat, p: nat)
    requires 0 < blockSize <= PAGE_SIZE && IsPow2(blockSize) && p == PerPage(blockSize)
    ensures p * blockSize == PAGE_SIZE
  {
    PageFillsBlocks(blockSize);
  }

  lemma RangeOfPage(dev: Device, first: nat, data: seq<Page>, blockSize: nat, p: nat, i: nat, at: nat, lba: nat)
    requires blockSize > 0 && p * blockSize == PAGE_SIZE && WholePages(data) && i < |data|
    requires at == i * p && lba == first + at
    ensures Range(WriteRange(dev, first, Concat(data), blockSize), lba, p) == data[i]
  {
    BlocksOfPage(data, blockSize, p, i, at);
    RangeWritten(dev, first, Cut(Concat(data), blockSize), at, p);
  }

  lemma LbasDiffer(blockSize: nat, b: nat, page: nat, cnt: nat)
    requires 0 < blockSize <= PAGE_SIZE && b < CACHE_BLOCK_NUMBER && CheckPio(page, cnt)
    ensures forall i: nat, j: nat :: i < cnt && j < cnt && i != j ==>
      Lbas(blockSize, b, page)(i) != Lbas(blockSize, b, page)(j)
  {
    forall i: nat, j: nat | i < cnt && j < cnt && i != j
      ensures Lbas(blockSize, b, page)(i) != Lbas(blockSize, b, page)(j)
    {
      LbaAgree(blockSize, b, page, i);
      LbaAgree(blockSize, b, page, j);
      LbaDisjoint(blockSize, b, page % 8 + i, b, page % 8 + j);
    }
  }

  /** The transfer lies in the slots of its own pages, and so apart from any other slot. */
  lemma TransferApart(blockSize: nat, b: nat, page: nat, cnt: nat, c: nat, j: nat, p: nat, first: nat, slot: nat)
    requires 0 < blockSize <= PAGE_SIZE && b < CACHE_BLOCK_NUMBER && c < CACHE_BLOCK_NUMBER && j < 8
    requires CheckPio(page, cnt) && !(c == b && page % 8 <= j < page % 8 + cnt) && cnt > 0
    requires p == PerPage(blockSize) && first == TargetBlock(blockSize, b, page) && slot == MoveLba(blockSize, c, j)
    ensures slot + p <= first || first + cnt * p <= slot
  {
    var x, y := 8 * b + page % 8, 8 * c + j;
    TargetIs(blockSize, b, page, page % 8, p);
    MoveIs(blockSize, c, j, p, y);
    RowsApart(x, y, cnt, p);
  }

  lemma SlotKept(dev: Device, ssd: map<nat, Page>, blockSize: nat, b: nat, page: nat, data: seq<Page>, c: nat, j: nat)
    requires 0 < blockSize <= PAGE_SIZE && IsPow2(blockSize) && b < CACHE_BLOCK_NUMBER && c < CACHE_BLOCK_NUMBER
    requires CheckPio(page, |data|) && WholePages(data) && j < 8 && ShowsSlot(dev, ssd, blockSize, c, j)
    requires !(c == b && page % 8 <= j < page % 8 + |data|)
    ensures ShowsSlot(WriteRange(dev, TargetBlock(blockSize, b, page), Concat(data), blockSize),
                      Put<nat>(ssd, Lbas(blockSize, b, page), data), blockSize, c, j)
  {
    BlocksKept(dev, blockSize, b, page, data, c, j, PerPage(blockSize), TargetBlock(blockSize, b, page),
               MoveLba(blockSize, c, j));
    LbasElsewhere(blockSize, b, page, |data|, c, j);
    PutOther<nat>(ssd, Lbas(blockSize, b, page), data, MoveLba(blockSize, c, j));
  }

  lemma BlocksKept(dev: Device, blockSize: nat, b: nat, page: nat, data: seq<Page>, c: nat, j: nat,
                   p: nat, first: nat, slot: nat)
    requires 0 < blockSize <= PAGE_SIZE && IsPow2(blockSize) && b < CACHE_BLOCK_NUMBER && c < CACHE_BLOCK_NUMBER
    requires CheckPio(page, |data|) && WholePages(data) && j < 8
    requires !(c == b && page % 8 <= j < page % 8 + |data|)
    requires p == PerPage(blockSize) && first == TargetBlock(blockSize, b, page) && slot == MoveLba(blockSize, c, j)
    ensures Range(WriteRange(dev, first, Concat(data), blockSize), slot, p) == Range(dev, slot, p)
  {
    if data == [] {
      assert Cut(Concat(data), blockSize) == [];
    } else {
      PageFillsBlocks(blockSize);
      TransferApart(blockSize, b, page, |data|, c, j, p, first, slot);
      RangeApart(dev, first, data, blockSize, p, slot);
    }
  }

  lemma RangeApart(dev: Device, first: nat, data: seq<Page>, blockSize: nat, p: nat, slot: nat)
    requires blockSize > 0 && p * blockSize == PAGE_SIZE && WholePages(data)
    requires slot + p <= first || first + |data| * p <= slot
    ensures Range(WriteRange(dev, first, Concat(data), blockSize), slot, p) == Range(dev, slot, p)
  {
    CutPages(data, blockSize, p);
    RangeOther(dev, first, Cut(Concat(data), blockSize), slot, p);
  }

  lemma LbasElsewhere(blockSize: nat, b: nat, page: nat, cnt: nat, c: nat, j: nat)
    requires 0 < blockSize <= PAGE_SIZE && b < CACHE_BLOCK_NUMBER && c < CACHE_BLOCK_NUMBER && j < 8
    requires CheckPio(page, cnt) && !(c == b && page % 8 <= j < page % 8 + cnt)
    ensures forall i: nat :: i < cnt ==> Lbas(blockSize, b, page)(i) != MoveLba(blockSize, c, j)
  {
    forall i: nat | i < cnt ensures Lbas(blockSize, b, page)(i) != MoveLba(blockSize, c, j) {
      LbaAgree(blockSize, b, page, i);
      LbaDisjoint(blockSize, b, page % 8 + i, c, j);
    }
  }

  // ---------- reads ----------

  lemma {:induction false} RangeSplit(dev: Device, lba: nat, m: nat, n: nat)
    ensures Range(dev, lba, m + n) == Range(dev, lba, m) + Range(dev, lba + m, n)
  {
    if n > 0 { RangeSplit(dev, lba, m, n - 1); }
  }

  /** The pages that the map has for a request. */
  function PagesAt(ssd: map<nat, Page>, blockSize: nat, b: nat, page: nat, cnt: nat): seq<Page>
    requires blockSize > 0
  {
    seq(cnt, i requires 0 <= i => Get(ssd, UserLba(blockSize, b, page, i)))
  }

  lemma ReadOneMore(dev: Device, first: nat, done: nat, p: nat, before: seq<Page>, last: Page)
    requires Range(dev, first, done) == Concat(before) && Range(dev, first + done, p) == last
    ensures Range(dev, first, done + p) == Concat(before + [last])
  {
    RangeSplit(dev, first, done, p);
    ConcatConcat(before, [last]);
    assert Concat([last]) == last + Concat([]);
  }

  lemma ReadStep(dev: Device, ssd: map<nat, Page>, blockSize: nat, n: nat, b: nat, page: nat, k: nat, p: nat, at: nat)
    requires 0 < blockSize <= PAGE_SIZE && b < n <= CACHE_BLOCK_NUMBER && page % 8 + k < 8
    requires Shows(dev, ssd, blockSize, n) && p == PerPage(blockSize) && at == k * p
    requires Range(dev, TargetBlock(blockSize, b, page), at) == Concat(FitAll(PagesAt(ssd, blockSize, b, page, k)))
    ensures Range(dev, TargetBlock(blockSize, b, page), at + p)
         == Concat(FitAll(PagesAt(ssd, blockSize, b, page, k + 1)))
  {
    SlotRead(dev, ssd, blockSize, n, b, page, k, p, at);
    FitSnoc(ssd, blockSize, b, page, k);
    ReadOneMore(dev, TargetBlock(blockSize, b, page), at, p, FitAll(PagesAt(ssd, blockSize, b, page, k)),
                Fit(Get(ssd, UserLba(blockSize, b, page, k))));
  }

  /** A read request's transfer of `cnt << block_per_page_shift` blocks gives the pages that the map has. */
  lemma {:induction false} ReadShows(dev: Device, ssd: map<nat, Page>, blockSize: nat, n: nat, b: nat, page: nat,
                                     cnt: nat, p: nat, blocks: nat)
    requires 0 < blockSize <= PAGE_SIZE && b < n <= CACHE_BLOCK_NUMBER && CheckPio(page, cnt)
    requires Shows(dev, ssd, blockSize, n) && p == PerPage(blockSize) && blocks == cnt * p
    ensures Range(dev, TargetBlock(blockSize, b, page), blocks) == Concat(FitAll(PagesAt(ssd, blockSize, b, page, cnt)))
  {
    if cnt > 0 {
      OneMore(cnt, p);
      ReadShows(dev, ssd, blockSize, n, b, page, cnt - 1, p, blocks - p);
      ReadStep(dev, ssd, blockSize, n, b, page, cnt - 1, p, blocks - p);
    }
  }

  lemma FitSnoc(ssd: map<nat, Page>, blockSize: nat, b: nat, page: nat, k: nat)
    requires blockSize > 0
    ensures FitAll(PagesAt(ssd, blockSize, b, page, k + 1))
         == FitAll(PagesAt(ssd, blockSize, b, page, k)) + [Fit(Get(ssd, UserLba(blockSize, b, page, k)))]
  {
  }

  lemma SlotRead(dev: Device, ssd: map<nat, Page>, blockSize: nat, n: nat, b: nat, page: nat, i: nat, p: nat, at: nat)
    requires 0 < blockSize <= PAGE_SIZE && b < n <= CACHE_BLOCK_NUMBER && page % 8 + i < 8
    requires Shows(dev, ssd, blockSize, n) && p == PerPage(blockSize) && at == i * p
    ensures Range(dev, TargetBlock(blockSize, b, page) + at, p) == Fit(Get(ssd, UserLba(blockSize, b, page, i)))
  {
    LbaAgree(blockSize, b, page, i);
    assert ShowsSlot(dev, ssd, blockSize, b, page % 8 + i);
  }

  // ---------- what the disk model does is what the device shows ----------

  lemma {:induction false} PutSame<A>(m: map<A, Page>, f: nat -> A, h: nat -> A, data: seq<Page>)
    requires forall i: nat :: i < |data| ==> f(i) == h(i)
    ensures Put(m, f, data) == Put(m, h, data)
  {
    if data != [] { PutSame(m, f, h, data[..|data| - 1]); }
  }

  /** A write request on a block that is or becomes cached: its transfer of the pages to the device keeps
      the device and the disk model together. */
  lemma WriteOnDevice(d: Disk, g: Addresses, dev: Device, blockSize: nat, used: iset<Key>, n: nat,
                      name: Name, page: nat, data: seq<Page>, b: nat)
    requires Inv(d.cache) && 0 < blockSize <= PAGE_SIZE && IsPow2(blockSize) && b < n <= CACHE_BLOCK_NUMBER
    requires g == CodeAddresses(blockSize, used) && Shows(dev, d.ssd, blockSize, n)
    requires CheckPio(page, |data|) && WholePages(data)
    requires Find(WriteLookup(d.cache, name, page, |data|), KeyOf(name, page)) == Some(b)
    ensures Shows(WriteRange(dev, TargetBlock(blockSize, b, page), Concat(data), blockSize),
                  DoWrite(d, g, name, page, data).ssd, blockSize, n)
  {
    WriteShows(dev, d.ssd, blockSize, n, b, page, data);
    PutSame<nat>(d.ssd, Lbas(blockSize, b, page), i => g.userLba(b, page, i), data);
  }

  /** The worker's store of a promoted block: one transfer of `1 << block_per_cblock_shift` blocks. */
  lemma StoreOnDevice(d: Disk, g: Addresses, dev: Device, blockSize: nat, used: iset<Key>, n: nat, left: seq<Page>)
    requires Inv(d.cache) && 0 < blockSize <= PAGE_SIZE && IsPow2(blockSize)
    requires |d.cache.slots| <= n <= CACHE_BLOCK_NUMBER
    requires g == CodeAddresses(blockSize, used) && Shows(dev, d.ssd, blockSize, n)
    requires Enabled(d.cache, Store(true)) && d.cache.worker.kind.Promotion? && |d.buf| == 8 && WholePages(d.buf)
    ensures |Cut(Concat(d.buf), blockSize)| == Pow2(CblockShift(blockSize))
    ensures Shows(WriteRange(dev, MoveLba(blockSize, d.cache.worker.block, 0), Concat(d.buf), blockSize),
                  DoWork(d, g, Store(true), left).ssd, blockSize, n)
  {
    var b := d.cache.worker.block;
    WriteShows(dev, d.ssd, blockSize, n, b, 0, d.buf);
    ShiftsBound(blockSize);
    MoveLbas(blockSize, b);
    PutSame<nat>(d.ssd, Lbas(blockSize, b, 0), j => g.moveLba(b, j), d.buf);
  }

  lemma MoveLbas(blockSize: nat, b: nat)
    requires 0 < blockSize <= PAGE_SIZE && b < CACHE_BLOCK_NUMBER
    ensures TargetBlock(blockSize, b, 0) == MoveLba(blockSize, b, 0)
    ensures forall i: nat :: i < 8 ==> Lbas(blockSize, b, 0)(i) == MoveLba(blockSize, b, i)
  {
    forall i: nat | i < 8 ensures Lbas(blockSize, b, 0)(i) == MoveLba(blockSize, b, i) {
      LbaAgree(blockSize, b, 0, i);
    }
    LbaAgree(blockSize, b, 0, 0);
  }

  // ---------- from a user's buffers to the blocks ----------

  lemma BytesAreConcat(mem: seq<bv8>, stream: seq<nat>, buffers: seq<nat>, cnt: nat)
    requires Paged(stream, buffers, cnt, mem) && Mapped(mem, stream)
    ensures BytesAt(mem, stream) == Concat(UserPages(mem, buffers, cnt))
  {
    var pages := UserPages(mem, buffers, cnt);
    ConcatLength(pages);
    forall t: nat | t < |stream| ensures BytesAt(mem, stream)[t] == Concat(pages)[t] {
      var i, j := t / PAGE_SIZE, t % PAGE_SIZE;
      PagedAt(stream, buffers, cnt, mem, t, i, j);
      ConcatAt(pages, i, j);
      assert t == i * PAGE_SIZE + j;
    }
  }

  /** `write_cache` down to the device: the request list becomes vectors, the driver walks them and moves
      what they name to consecutive blocks, and the device then shows the buffers' pages in their slots. */
  method WriteRequest(dev: Device, head: Pio, mem: seq<bv8>, blockSize: nat, b: nat, ghost ssd: map<nat, Page>,
                      ghost n: nat, ghost nodes: seq<Pio>, ghost h: Header, ghost buffers: seq<nat>)
    returns (dev': Device)
    requires Request(nodes, h, buffers) && nodes[0] == head && h.page < WORD && h.cnt <= |nodes|
    requires forall i :: 0 <= i < h.cnt ==> buffers[i] + PAGE_SIZE <= |mem|
    requires 0 < blockSize <= PAGE_SIZE && IsPow2(blockSize) && b < n <= CACHE_BLOCK_NUMBER
    requires CheckPio(h.page, h.cnt) && Shows(dev, ssd, blockSize, n)
    ensures Shows(dev', Put<nat>(ssd, Lbas(blockSize, b, h.page), UserPages(mem, buffers, h.cnt)), blockSize, n)
  {
    var _, page, _ := HeadOf(head, nodes, h, buffers);
    var segments := TransferRequest(head, blockSize, b, nodes, h, buffers);
    PagedMapped(Stream(segments), buffers, h.cnt, mem);
    var bytes := Gather(mem, segments);
    BytesAreConcat(mem, Stream(segments), buffers, h.cnt);
    dev' := WriteRange(dev, TargetBlock(blockSize, b, page), bytes, blockSize);
    WriteShows(dev, ssd, blockSize, n, b, page, UserPages(mem, buffers, h.cnt));
  }
}
