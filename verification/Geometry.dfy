/** Where pages lie: the shifts computed from the device's block size, the 32-bit LBA and file
    offset arithmetic, and the check on a request (lib/ssd_cache_target.c, lib/ssd_cache_mapping.c,
    lib/ssd_cache_api.c). */
module Geometry {
  import opened Hash

  const CACHE_BLOCK_SIZE := 0x8000
  const CACHE_BLOCK_NUMBER := 0x8000
  const PAGE_SIZE := 0x1000

  function Log2(n: nat): nat {
    if n > 1 then 1 + Log2(n / 2) else 0
  }

  /** `block_per_cblock_shift` and `block_per_page_shift`. */
  function CblockShift(blockSize: nat): nat
    requires blockSize > 0
  {
    Log2(CACHE_BLOCK_SIZE / blockSize)
  }

  function PageShift(blockSize: nat): nat
    requires blockSize > 0
  {
    Log2(PAGE_SIZE / blockSize)
  }

  // ---------- the two shifts ----------

  lemma {:induction false} Log2Bounds(n: nat)
    requires n > 0
    ensures Pow2(Log2(n)) <= n < 2 * Pow2(Log2(n))
  {
    if n > 1 { Log2Bounds(n / 2); }
  }

  lemma DivMod(a: nat, d: nat)
    requires d > 0
    ensures a == (a / d) * d + a % d && a % d < d
  {
  }

  /** Eight times a quotient and its remainder. */
  lemma EightTimes(q: nat, r: nat, t: nat, u: nat, d: nat)
    requires PAGE_SIZE == q * d + r && 8 * r == t * d + u && r < d
    ensures CACHE_BLOCK_SIZE == (8 * q + t) * d + u && t < 8
  {
    assert (8 * q + t) * d == 8 * (q * d) + t * d;
    if t >= 8 { MulMono(8, t, d); }
  }

  lemma EighthOfQuotient(d: nat)
    requires d > 0
    ensures CACHE_BLOCK_SIZE / d / 8 == PAGE_SIZE / d
  {
    var q, r := PAGE_SIZE / d, PAGE_SIZE % d;
    var t, u := (8 * r) / d, (8 * r) % d;
    DivMod(PAGE_SIZE, d);
    DivMod(8 * r, d);
    EightTimes(q, r, t, u, d);
    DivModUnique(CACHE_BLOCK_SIZE, d, 8 * q + t, u);
  }

  lemma Log2Eighth(m: nat, n: nat)
    requires n == m / 8
    ensures n > 0 ==> Log2(m) == 3 + Log2(n)
    ensures n == 0 ==> Log2(m) <= 2
  {
    assert m / 2 / 2 / 2 == n;
    if n > 0 {
      assert Log2(m) == 1 + Log2(m / 2) == 2 + Log2(m / 2 / 2) == 3 + Log2(m / 2 / 2 / 2);
    } else {
      assert Log2(m / 2 / 2) == 0;
    }
  }

  /** The shifts differ by 3, so that 8 pages fill a cache block, exactly for the block sizes that
      are no larger than a page. */
  lemma ShiftsDifferBy3(blockSize: nat)
    requires blockSize > 0
    ensures CblockShift(blockSize) == PageShift(blockSize) + 3 <==> blockSize <= PAGE_SIZE
  {
    EighthOfQuotient(blockSize);
    AtLeastOnce(PAGE_SIZE, blockSize);
    Log2Eighth(CACHE_BLOCK_SIZE / blockSize, PAGE_SIZE / blockSize);
  }

  lemma AtLeastOnce(a: nat, d: nat)
    requires d > 0
    ensures a / d > 0 <==> d <= a
  {
    assert a == d * (a / d) + a % d;
    if d > a { DivModUnique(a, d, 0, a); }
    else if a / d == 0 { assert false; }
  }

  ghost predicate IsPow2(b: nat) {
    exists k: nat :: Pow2(k) == b
  }

  lemma {:induction false} Pow2Log2(k: nat)
    ensures Log2(Pow2(k)) == k
  {
    if k > 0 { Pow2Log2(k - 1); }
  }

  lemma Pow2Small()
    ensures Pow2(12) == PAGE_SIZE && Pow2(15) == CACHE_BLOCK_SIZE && Pow2(3) == 8
    ensures Pow2(17) == 0x2_0000 && Pow2(20) == 0x10_0000
  {
    assert Pow2(3) == 8 && Pow2(8) == 256 && Pow2(4) == 16 && Pow2(1) == 2;
    Pow2Sum(8, 4);
    Pow2Sum(12, 3);
    Pow2Sum(8, 8);
    Pow2Sum(16, 1);
    Pow2Sum(16, 4);
  }

  lemma {:induction false} Pow2Divides(m: nat, k: nat, q: nat)
    requires q * Pow2(m) == Pow2(k)
    ensures m <= k && q == Pow2(k - m)
  {
    if m > 0 {
      assert q * Pow2(m) == 2 * (q * Pow2(m - 1));
      if k == 0 {
        assert false;
      } else {
        Pow2Divides(m - 1, k - 1, q);
      }
    }
  }

  /** `2^block_per_page_shift` device blocks hold exactly one page just when the block size is a
      power of two (and no larger than a page). */
  lemma PageFillsBlocks(blockSize: nat)
    requires 0 < blockSize <= PAGE_SIZE
    ensures blockSize * Pow2(PageShift(blockSize)) == PAGE_SIZE <==> IsPow2(blockSize)
  {
    Pow2Small();
    var s := PageShift(blockSize);
    if blockSize * Pow2(s) == PAGE_SIZE {
      Pow2Divides(s, 12, blockSize);
    } else if IsPow2(blockSize) {
      var k: nat :| Pow2(k) == blockSize;
      AtMost12(k);
      Pow2Sum(k, 12 - k);
      DivModUnique(PAGE_SIZE, blockSize, Pow2(12 - k), 0);
      Pow2Log2(12 - k);
      assert false;
    }
  }

  lemma {:induction false} Pow2Mono(m: nat, n: nat)
    requires m <= n
    ensures Pow2(m) <= Pow2(n)
  {
    if m < n { Pow2Mono(m, n - 1); }
  }

  lemma AtMost12(k: nat)
    requires Pow2(k) <= 4096
    ensures k <= 12
  {
    Pow2Small();
    assert Pow2(13) == 8192;
    if k > 12 { Pow2Mono(13, k); }
  }

  // ---------- requests and their LBA ranges ----------

  /** `check_pio`: the request stays inside one cache block. */
  predicate CheckPio(page: nat, cnt: nat) {
    8 - page % 8 >= cnt
  }

  /** The pages of a request, if it has any, are pages of one cache block. */
  predicate InOneBlock(page: nat, cnt: nat) {
    cnt == 0 || (page + cnt - 1) / 8 == page / 8
  }

  /** The check accepts exactly the requests that stay in one block. */
  lemma AcceptedExactly(page: nat, cnt: nat)
    ensures CheckPio(page, cnt) <==> InOneBlock(page, cnt)
  {
  }

  /** The first LBA of a request, in 32-bit arithmetic (`write_cache`, `read_cache`). */
  function TargetBlock(blockSize: nat, cblock: nat, page: nat): nat
    requires blockSize > 0
  {
    (Shl(cblock, CblockShift(blockSize)) + Shl(page % 8, PageShift(blockSize))) % WORD
  }

  /** The first LBA of the `i`-th page of a request. */
  function UserLba(blockSize: nat, cblock: nat, page: nat, i: nat): nat
    requires blockSize > 0
  {
    TargetBlock(blockSize, cblock, page) + i * Pow2(PageShift(blockSize))
  }

  /** The first LBA of the `j`-th page of a block that the worker moves (`mg_start`). */
  function MoveLba(blockSize: nat, cblock: nat, j: nat): nat
    requires blockSize > 0
  {
    Shl(cblock, CblockShift(blockSize)) + j * Pow2(PageShift(blockSize))
  }

  lemma MulMono(a: nat, b: nat, c: nat)
    requires a <= b
    ensures a * c <= b * c
  {
    assert b * c == a * c + (b - a) * c;
  }

  lemma QuotientAtMost(a: nat, d: nat)
    requires d > 0
    ensures a / d <= a
  {
    var q := a / d;
    assert a == d * q + a % d;
    MulMono(1, d, q);
  }

  lemma ShiftsBound(blockSize: nat)
    requires 0 < blockSize <= PAGE_SIZE
    ensures Pow2(CblockShift(blockSize)) == 8 * Pow2(PageShift(blockSize)) <= CACHE_BLOCK_SIZE
  {
    ShiftsDifferBy3(blockSize);
    Pow2Sum(3, PageShift(blockSize));
    Pow2Small();
    var q := CACHE_BLOCK_SIZE / blockSize;
    AtLeastOnce(CACHE_BLOCK_SIZE, blockSize);
    QuotientAtMost(CACHE_BLOCK_SIZE, blockSize);
    Log2Bounds(q);
  }

  lemma EightRows(c: nat, p: nat)
    ensures c * (8 * p) == (8 * c) * p
  {
  }

  lemma TimesSum(a: nat, b: nat, p: nat)
    ensures (a + b) * p == a * p + b * p
  {
  }

  /** Row `8 * c + j` of rows of `p` places ends within the device. */
  lemma RowFits(c: nat, j: nat, p: nat)
    requires 8 * p <= CACHE_BLOCK_SIZE && c < CACHE_BLOCK_NUMBER && j < 8
    ensures (8 * c + j + 1) * p <= CACHE_BLOCK_NUMBER * CACHE_BLOCK_SIZE
  {
    MulMono(8 * c + j + 1, 8 * CACHE_BLOCK_NUMBER, p);
    EightRows(CACHE_BLOCK_NUMBER, p);
  }

  lemma NoWrap(x: nat, k: nat, v: nat)
    requires v == x * Pow2(k) && v < WORD
    ensures Shl(x, k) == v
  {
  }

  /** With at most 2^15 blocks no shift wraps, and pages are laid out one after the other. */
  lemma Layout(blockSize: nat, cblock: nat, j: nat)
    requires 0 < blockSize <= PAGE_SIZE && cblock < CACHE_BLOCK_NUMBER && j < 8
    ensures MoveLba(blockSize, cblock, j) == (8 * cblock + j) * Pow2(PageShift(blockSize))
    ensures Shl(cblock, CblockShift(blockSize)) == (8 * cblock) * Pow2(PageShift(blockSize))
    ensures Shl(j, PageShift(blockSize)) == j * Pow2(PageShift(blockSize))
    ensures (8 * cblock + j + 1) * Pow2(PageShift(blockSize)) <= CACHE_BLOCK_NUMBER * CACHE_BLOCK_SIZE
  {
    ShiftsBound(blockSize);
    var p := Pow2(PageShift(blockSize));
    RowFits(cblock, j, p);
    TimesSum(8 * cblock, j, p);
    TimesSum(8 * cblock + j, 1, p);
    EightRows(cblock, p);
    NoWrap(cblock, CblockShift(blockSize), (8 * cblock) * p);
    NoWrap(j, PageShift(blockSize), j * p);
  }

  lemma RowSum(row: nat, j: nat, i: nat, p: nat, bound: nat)
    requires p > 0 && (row + j + 1) * p <= bound
    ensures row * p + j * p == (row + j) * p < bound
    ensures (row + j) * p + i * p == (row + (j + i)) * p
  {
    assert (row + j + 1) * p == (row + j) * p + p;
  }

  /** A request starts at the slot of its first page. */
  lemma TargetIs(blockSize: nat, cblock: nat, page: nat, j: nat, p: nat)
    requires 0 < blockSize <= PAGE_SIZE && cblock < CACHE_BLOCK_NUMBER
    requires j == page % 8 && p == Pow2(PageShift(blockSize))
    ensures TargetBlock(blockSize, cblock, page) == (8 * cblock + j) * p
  {
    Layout(blockSize, cblock, j);
    RowSum(8 * cblock, j, 0, p, CACHE_BLOCK_NUMBER * CACHE_BLOCK_SIZE);
  }

  /** The worker and the users mean the same LBA by the same page. */
  lemma LbaAgree(blockSize: nat, cblock: nat, page: nat, i: nat)
    requires 0 < blockSize <= PAGE_SIZE && cblock < CACHE_BLOCK_NUMBER && page % 8 + i < 8
    ensures UserLba(blockSize, cblock, page, i) == MoveLba(blockSize, cblock, page % 8 + i)
  {
    var j, p := page % 8, Pow2(PageShift(blockSize));
    TargetIs(blockSize, cblock, page, j, p);
    Layout(blockSize, cblock, j + i);
    TimesSum(8 * cblock + j, i, p);
  }

  /** Rows of `p` places, `cnt` of them from `x` on, and row `y` before or behind them. */
  lemma RowsApart(x: nat, y: nat, cnt: nat, p: nat)
    requires y < x || x + cnt <= y
    ensures y < x ==> y * p + p <= x * p
    ensures y >= x ==> x * p + cnt * p <= y * p
  {
    if y < x {
      MulMono(y + 1, x, p);
      assert (y + 1) * p == y * p + p;
    } else {
      MulMono(x + cnt, y, p);
      assert (x + cnt) * p == x * p + cnt * p;
    }
  }

  lemma MoveIs(blockSize: nat, cblock: nat, j: nat, p: nat, x: nat)
    requires 0 < blockSize <= PAGE_SIZE && cblock < CACHE_BLOCK_NUMBER && j < 8 && p == Pow2(PageShift(blockSize))
    requires x == 8 * cblock + j
    ensures MoveLba(blockSize, cblock, j) == x * p
  {
    Layout(blockSize, cblock, j);
  }

  lemma SlotsApart(x: nat, y: nat, p: nat, u: nat, v: nat)
    requires u == x * p && v == y * p && x != y
    ensures u + p <= v || v + p <= u
  {
    RowsApart(x, y, 1, p);
  }

  /** The LBA ranges of distinct page slots are disjoint. */
  lemma LbaDisjoint(blockSize: nat, c: nat, j: nat, d: nat, k: nat)
    requires 0 < blockSize <= PAGE_SIZE && c < CACHE_BLOCK_NUMBER && d < CACHE_BLOCK_NUMBER && j < 8 && k < 8
    requires (c, j) != (d, k)
    ensures var p := Pow2(PageShift(blockSize));
      || MoveLba(blockSize, c, j) + p <= MoveLba(blockSize, d, k)
      || MoveLba(blockSize, d, k) + p <= MoveLba(blockSize, c, j)
  {
    var p, x, y := Pow2(PageShift(blockSize)), 8 * c + j, 8 * d + k;
    MoveIs(blockSize, c, j, p, x);
    MoveIs(blockSize, d, k, p, y);
    SlotsApart(x, y, p, MoveLba(blockSize, c, j), MoveLba(blockSize, d, k));
  }

  lemma QuotientTimes(a: nat, d: nat)
    requires d > 0
    ensures (a / d) * d <= a
  {
    assert a == (a / d) * d + a % d;
  }

  /** The device blocks of a cache block take at most 32 KB. */
  lemma BlockFits(blockSize: nat)
    requires 0 < blockSize <= PAGE_SIZE
    ensures Pow2(CblockShift(blockSize)) * blockSize <= CACHE_BLOCK_SIZE
  {
    AtLeastOnce(CACHE_BLOCK_SIZE, blockSize);
    Log2Bounds(CACHE_BLOCK_SIZE / blockSize);
    QuotientTimes(CACHE_BLOCK_SIZE, blockSize);
    MulMono(Pow2(CblockShift(blockSize)), CACHE_BLOCK_SIZE / blockSize, blockSize);
  }

  /** A request passes the check exactly if all its LBAs lie in its own cache block's range, and the
      bytes of that range lie on any device that `init_ssd_cache` accepts, whose size is in bytes. */
  lemma RequestStaysInBlock(blockSize: nat, deviceSize: nat, cblock: nat, page: nat, cnt: nat)
    requires 0 < blockSize <= 4096 && cblock < 0x8000 && deviceSize >= 0x8000 * 0x8000
    ensures var first, blocks := TargetBlock(blockSize, cblock, page), cnt * Pow2(PageShift(blockSize));
      && MoveLba(blockSize, cblock, 0) <= first
      && (CheckPio(page, cnt) <==>
            first + blocks <= MoveLba(blockSize, cblock, 0) + Pow2(CblockShift(blockSize)))
    ensures (MoveLba(blockSize, cblock, 0) + Pow2(CblockShift(blockSize))) * blockSize <= deviceSize
  {
    var p := Pow2(PageShift(blockSize));
    ShiftsBound(blockSize);
    TargetIs(blockSize, cblock, page, page % 8, p);
    MoveIs(blockSize, cblock, 0, p, 8 * cblock);
    InRow(8 * cblock, page % 8, cnt, p);
    BlockOnDevice(cblock, Pow2(CblockShift(blockSize)), p, blockSize);
  }

  /** The end of block `c` in bytes, when its `8 * p` device blocks take at most 32 KB. */
  lemma BlockOnDevice(c: nat, blocks: nat, p: nat, blockSize: nat)
    requires 0 < blockSize <= PAGE_SIZE && c < CACHE_BLOCK_NUMBER
    requires blocks == 8 * p == Pow2(CblockShift(blockSize))
    ensures ((8 * c) * p + blocks) * blockSize <= CACHE_BLOCK_NUMBER * CACHE_BLOCK_SIZE
  {
    BlockFits(blockSize);
    assert (8 * c) * p == c * blocks;
    assert (c * blocks + blocks) * blockSize == (c + 1) * (blocks * blockSize);
    MulMono(c + 1, CACHE_BLOCK_NUMBER, blocks * blockSize);
    assert CACHE_BLOCK_NUMBER * (blocks * blockSize) <= CACHE_BLOCK_NUMBER * CACHE_BLOCK_SIZE;
  }

  lemma InRow(row: nat, j: nat, cnt: nat, p: nat)
    requires j < 8 && p > 0
    ensures row * p <= (row + j) * p
    ensures (row + j) * p + cnt * p <= row * p + 8 * p <==> j + cnt <= 8
  {
    MulMono(row, row + j, p);
    TimesSum(row + j, cnt, p);
    TimesSum(row, 8, p);
    if j + cnt <= 8 {
      MulMono(row + j + cnt, row + 8, p);
    } else {
      MulMono(row + 9, row + j + cnt, p);
      TimesSum(row + 8, 1, p);
    }
  }

  // ---------- file offsets ----------

  /** The file offset of the `i`-th page of a request (`read_origin`, `write_origin`). */
  function UserOffset(page: nat, i: nat): nat {
    Shl(page, 12) + i * PAGE_SIZE
  }

  /** The file offset of the `j`-th page of a block that the worker moves. */
  function MoveOffset(cachePage: nat, j: nat): nat {
    Shl(cachePage, 15) + j * PAGE_SIZE
  }

  /** Whatever wraps, requests and the worker mean the same file offset by the same page. */
  lemma OffsetAgree(page: nat, i: nat)
    ensures UserOffset(page, i) == MoveOffset(page / 8, page % 8 + i)
  {
    Pow2Small();
    var c, j := page / 8, page % 8;
    var k, r := c / 0x2_0000, c % 0x2_0000;
    assert c * 0x8000 == k * WORD + r * 0x8000;
    DivModUnique(c * 0x8000, WORD, k, r * 0x8000);
    assert page * 0x1000 == k * WORD + (r * 0x8000 + j * 0x1000);
    DivModUnique(page * 0x1000, WORD, k, r * 0x8000 + j * 0x1000);
  }

  /** Two pages of a file share an offset exactly when their numbers agree modulo 2^20: the shift
      drops the rest. */
  lemma OffsetsCollide(page: nat, other: nat)
    ensures UserOffset(page, 0) == UserOffset(other, 0) <==> page % 0x10_0000 == other % 0x10_0000
  {
    OffsetOf(page);
    OffsetOf(other);
  }

  lemma OffsetOf(page: nat)
    ensures UserOffset(page, 0) == (page % 0x10_0000) * 0x1000
  {
    Pow2Small();
    var k, r := page / 0x10_0000, page % 0x10_0000;
    assert page * 0x1000 == k * WORD + r * 0x1000;
    DivModUnique(page * 0x1000, WORD, k, r * 0x1000);
  }

  /** The shift drops all but 17 bits of a block number. */
  lemma BlockOffset(cachePage: nat)
    ensures forall j: nat :: MoveOffset(cachePage, j) == (cachePage % 0x2_0000) * 0x8000 + j * PAGE_SIZE
  {
    Pow2Small();
    var k, r := cachePage / 0x2_0000, cachePage % 0x2_0000;
    assert cachePage * 0x8000 == k * WORD + r * 0x8000;
    DivModUnique(cachePage * 0x8000, WORD, k, r * 0x8000);
  }
}
