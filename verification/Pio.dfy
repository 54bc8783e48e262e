/** Page requests as linked lists of nodes, and the buffer vectors made of them (lib/pio.c,
    lib/ssd_cache_target.c). */
module Pios {
  import opened Works
  import opened Hash
  import opened Geometry
  import opened ScatterGather

  datatype Operation = READ | WRITE | DISCARD

  class Pio {
    var fullPathName: Name
    var fd: int
    var pageIndex: nat
    var operation: Operation
    var buffer: nat
    var pioCnt: nat
    var next: Pio?

    /** `create_pio`. */
    constructor (fullPathName: Name, fd: int, pageIndex: nat, operation: Operation, buffer: nat, pioCnt: nat)
      ensures this.fullPathName == fullPathName && this.fd == fd && this.pageIndex == pageIndex
      ensures this.operation == operation && this.buffer == buffer && this.pioCnt == pioCnt && next == null
    {
      this.fullPathName, this.fd, this.pageIndex := fullPathName, fd, pageIndex;
      this.operation, this.buffer, this.pioCnt := operation, buffer, pioCnt;
      next := null;
    }
  }

  /** What the head of a request says about all of it. */
  datatype Header = Header(name: Name, fd: int, page: nat, operation: Operation, cnt: nat)

  /** `nodes` are linked one after the other; node `i` is for page `page + i` and has buffer `i`. */
  ghost predicate Request(nodes: seq<Pio>, h: Header, buffers: seq<nat>)
    reads nodes
  {
    && |nodes| == |buffers| > 0
    && (forall i, j :: 0 <= i < j < |nodes| ==> nodes[i] != nodes[j])
    && (forall i {:trigger nodes[i].next} :: 0 <= i < |nodes| ==>
          nodes[i].next == if i + 1 < |nodes| then nodes[i + 1] else null)
    && (forall i :: 0 <= i < |nodes| ==> IsNode(nodes[i], h, i, buffers[i]))
  }

  /** The fields of node `i` of a request. */
  ghost predicate IsNode(n: Pio, h: Header, i: nat, buffer: nat)
    reads n
  {
    && n.fullPathName == h.name && n.fd == h.fd && n.operation == h.operation && n.pioCnt == h.cnt
    && n.buffer == buffer && n.pageIndex == (h.page + i) % WORD
  }

  lemma Extended(nodes: seq<Pio>, last: Pio, h: Header, buffers: seq<nat>, buffer: nat)
    requires |nodes| == |buffers| > 0
    requires forall i, j :: 0 <= i < j < |nodes| ==> nodes[i] != nodes[j]
    requires forall i :: 0 <= i < |nodes| ==> nodes[i] != last && IsNode(nodes[i], h, i, buffers[i])
    requires forall i {:trigger nodes[i].next} :: 0 <= i < |nodes| - 1 ==> nodes[i].next == nodes[i + 1]
    requires nodes[|nodes| - 1].next == last && last.next == null && IsNode(last, h, |nodes|, buffer)
    ensures Request(nodes + [last], h, buffers + [buffer])
  {
  }

  /** The walk of `append_pio` to the last node. */
  method LastNode(head: Pio, ghost nodes: seq<Pio>, ghost h: Header, ghost buffers: seq<nat>)
    returns (current: Pio)
    requires Request(nodes, h, buffers) && nodes[0] == head
    ensures current == nodes[|nodes| - 1]
  {
    current := head;
    ghost var k := 0;
    while current.next != null
      invariant 0 <= k < |nodes| && current == nodes[k]
      decreases |nodes| - k
    {
      assert nodes[k].next != null;
      current := current.next;
      k := k + 1;
    }
    assert nodes[k].next == null;
  }

  /** `append_pio`: links a new node for the next page behind the last one. */
  method AppendPio(head: Pio, buffer: nat, ghost nodes: seq<Pio>, ghost h: Header, ghost buffers: seq<nat>)
    returns (ghost nodes': seq<Pio>)
    requires Request(nodes, h, buffers) && nodes[0] == head
    modifies nodes
    ensures Request(nodes', h, buffers + [buffer]) && |nodes'| == |nodes| + 1 && fresh(nodes'[|nodes|])
    ensures forall i :: 0 <= i < |nodes| ==> nodes'[i] == nodes[i]
  {
    var current := LastNode(head, nodes, h, buffers);
    NextPage(h.page, |nodes| - 1);
    var last := new Pio(current.fullPathName, current.fd, (current.pageIndex + 1) % WORD,
                        current.operation, buffer, current.pioCnt);
    assert forall i :: 0 <= i < |nodes| ==> nodes[i] != last;
    current.next := last;
    nodes' := nodes + [last];
    assert forall i :: 0 <= i < |nodes| ==> IsNode(nodes[i], h, i, buffers[i]) by {
      assert forall i :: 0 <= i < |nodes| ==> old(IsNode(nodes[i], h, i, buffers[i]));
    }
    assert forall i {:trigger nodes[i].next} :: 0 <= i < |nodes| - 1 ==> nodes[i].next == nodes[i + 1] by {
      assert forall i {:trigger nodes[i].next} :: 0 <= i < |nodes| - 1 ==> old(nodes[i].next) == nodes[i + 1];
    }
    Extended(nodes, last, h, buffers, buffer);
  }

  lemma NextPage(page: nat, k: nat)
    ensures ((page + k) % WORD + 1) % WORD == (page + k + 1) % WORD
  {
  }

  /** A request of one node for each buffer, made by `create_pio` and then appending. */
  method BuildRequest(name: Name, fd: int, page: nat, operation: Operation, buffers: seq<nat>, cnt: nat)
    returns (head: Pio, ghost nodes: seq<Pio>)
    requires |buffers| > 0 && page < WORD
    ensures Request(nodes, Header(name, fd, page, operation, cnt), buffers) && nodes[0] == head
  {
    head := new Pio(name, fd, page, operation, buffers[0], cnt);
    ghost var h := Header(name, fd, page, operation, cnt);
    nodes := [head];
    for k := 1 to |buffers|
      invariant Request(nodes, h, buffers[..k]) && nodes[0] == head
      invariant forall i :: 0 <= i < |nodes| ==> fresh(nodes[i])
    {
      assert buffers[..k + 1] == buffers[..k] + [buffers[k]];
      nodes := AppendPio(head, buffers[k], nodes, h, buffers[..k]);
    }
    assert buffers[..|buffers|] == buffers;
  }

  /** `pio_to_iovec`: one whole page for each of the first `cnt` nodes. */
  method PioToIovec(head: Pio, iov: array<Iovec>, cnt: nat,
                    ghost nodes: seq<Pio>, ghost h: Header, ghost buffers: seq<nat>)
    requires Request(nodes, h, buffers) && nodes[0] == head && cnt <= |nodes| && cnt <= iov.Length
    modifies iov
    ensures forall i :: 0 <= i < cnt ==> iov[i] == Iovec(buffers[i], PAGE_SIZE)
    ensures forall i :: cnt <= i < iov.Length ==> iov[i] == old(iov[i])
  {
    var pio: Pio? := head;
    for i := 0 to cnt
      invariant pio == if i < |nodes| then nodes[i] else null
      invariant forall m :: 0 <= m < i ==> iov[m] == Iovec(buffers[m], PAGE_SIZE)
      invariant forall m :: cnt <= m < iov.Length ==> iov[m] == old(iov[m])
    {
      iov[i] := Iovec(pio.buffer, PAGE_SIZE);
      assert nodes[i].next == if i + 1 < |nodes| then nodes[i + 1] else null;
      pio := pio.next;
    }
  }

  /** Byte `j` of buffer `i` is byte `i * 4096 + j` of a transfer. */
  ghost predicate ByteAt(stream: seq<nat>, buffers: seq<nat>, i: nat, j: nat)
    requires i < |buffers|
  {
    i * PAGE_SIZE + j < |stream| && stream[i * PAGE_SIZE + j] == buffers[i] + j
  }

  /** Byte `i * 4096 + j` of a transfer that starts at a request's first LBA falls in the slot of page
      `page + i`, at byte `j` of it. */
  ghost predicate InSlot(blockSize: nat, cblock: nat, page: nat, i: nat, j: nat)
    requires blockSize > 0
  {
    var t := i * PAGE_SIZE + j;
    var lba, slot := TargetBlock(blockSize, cblock, page) + t / blockSize, MoveLba(blockSize, cblock, page % 8 + i);
    && slot <= lba < slot + Pow2(PageShift(blockSize))
    && lba - slot == j / blockSize && t % blockSize == j % blockSize
  }

  lemma SlotPlacement(blockSize: nat, cblock: nat, page: nat, i: nat, j: nat)
    requires 0 < blockSize <= PAGE_SIZE && IsPow2(blockSize) && cblock < CACHE_BLOCK_NUMBER
    requires page % 8 + i < 8 && j < PAGE_SIZE
    ensures InSlot(blockSize, cblock, page, i, j)
  {
    PageFillsBlocks(blockSize);
    LbaAgree(blockSize, cblock, page, i);
    ByteToBlock(i, j, blockSize, Pow2(PageShift(blockSize)));
  }

  /** Byte `j` of buffer `i` moves to or from the device blocks of the slot of page `page + i`: it is
      byte `i * 4096 + j` of the transfer, which starts at the request's first LBA. */
  lemma PagePlacement(blockSize: nat, cblock: nat, page: nat, buffers: seq<nat>, iovs: seq<Iovec>, i: nat, j: nat)
    requires 0 < blockSize <= PAGE_SIZE && IsPow2(blockSize) && cblock < CACHE_BLOCK_NUMBER
    requires CheckPio(page, |buffers|) && |iovs| == |buffers| && i < |buffers| && j < PAGE_SIZE
    requires forall m :: 0 <= m < |iovs| ==> iovs[m] == Iovec(buffers[m], PAGE_SIZE)
    ensures ByteAt(Stream(iovs), buffers, i, j) && InSlot(blockSize, cblock, page, i, j)
  {
    StreamAt(iovs, PAGE_SIZE, i, j, i * PAGE_SIZE + j);
    SlotPlacement(blockSize, cblock, page, i, j);
  }

  /** Where a byte of a page falls when `p` blocks fill a page. */
  lemma ByteToBlock(i: nat, j: nat, blockSize: nat, p: nat)
    requires blockSize > 0 && blockSize * p == PAGE_SIZE && j < PAGE_SIZE
    ensures (i * PAGE_SIZE + j) / blockSize == i * p + j / blockSize
    ensures (i * PAGE_SIZE + j) % blockSize == j % blockSize
    ensures j / blockSize < p
  {
    var q, r := j / blockSize, j % blockSize;
    Split(j, blockSize);
    ScaleUp(i, p, q, blockSize);
    DivModUnique(i * PAGE_SIZE + j, blockSize, i * p + q, r);
    if q >= p { MulMono(p, q, blockSize); }
  }

  lemma Split(j: nat, d: nat)
    requires d > 0
    ensures j == (j / d) * d + j % d
  {
  }

  lemma ScaleUp(i: nat, p: nat, q: nat, d: nat)
    ensures (i * p + q) * d == i * (d * p) + q * d
  {
    assert (i * p + q) * d == (i * p) * d + q * d;
    assert (i * p) * d == i * (d * p);
  }

  lemma {:induction false} PagesLength(iovs: seq<Iovec>)
    requires forall m :: 0 <= m < |iovs| ==> iovs[m].len == PAGE_SIZE
    ensures |Stream(iovs)| == |iovs| * PAGE_SIZE
  {
    if iovs != [] { PagesLength(iovs[1..]); }
  }

  // ---------- from a request to the device ----------

  /** The buffer vectors of the first `pio_cnt` nodes of a request. */
  method Vectors(head: Pio, ghost nodes: seq<Pio>, ghost h: Header, ghost buffers: seq<nat>)
    returns (iovs: seq<Iovec>)
    requires Request(nodes, h, buffers) && nodes[0] == head && h.cnt <= |nodes|
    ensures |iovs| == h.cnt && forall i :: 0 <= i < h.cnt ==> iovs[i] == Iovec(buffers[i], PAGE_SIZE)
  {
    assert IsNode(nodes[0], h, 0, buffers[0]);
    var iov := new Iovec[head.pioCnt](_ => Iovec(0, 0));
    PioToIovec(head, iov, head.pioCnt, nodes, h, buffers);
    iovs := iov[..];
  }

  method HeadOf(head: Pio, ghost nodes: seq<Pio>, ghost h: Header, ghost buffers: seq<nat>)
    returns (name: Name, page: nat, cnt: nat)
    requires Request(nodes, h, buffers) && nodes[0] == head && h.page < WORD
    ensures name == h.name && page == h.page && cnt == h.cnt
  {
    assert IsNode(nodes[0], h, 0, buffers[0]);
    name, page, cnt := head.fullPathName, head.pageIndex, head.pioCnt;
  }

  /** A request of which the driver walks all segments: what it is given for each byte of each page, and
      where that byte belongs on the device. */
  method TransferRequest(head: Pio, blockSize: nat, cblock: nat,
                         ghost nodes: seq<Pio>, ghost h: Header, ghost buffers: seq<nat>)
    returns (segments: seq<Iovec>)
    requires Request(nodes, h, buffers) && nodes[0] == head && h.cnt <= |nodes|
    requires 0 < blockSize <= PAGE_SIZE && IsPow2(blockSize) && cblock < CACHE_BLOCK_NUMBER && CheckPio(h.page, h.cnt)
    ensures |Stream(segments)| == h.cnt * PAGE_SIZE
    ensures forall i: nat, j: nat :: i < h.cnt && j < PAGE_SIZE ==>
      ByteAt(Stream(segments), buffers, i, j) && InSlot(blockSize, cblock, h.page, i, j)
  {
    var iovs := Vectors(head, nodes, h, buffers);
    PagesLength(iovs);
    var req := new IoReq(iovs);
    segments := req.Walk(0);
    forall i: nat, j: nat | i < h.cnt && j < PAGE_SIZE
      ensures ByteAt(Stream(segments), buffers, i, j) && InSlot(blockSize, cblock, h.page, i, j)
    {
      PagePlacement(blockSize, cblock, h.page, buffers[..h.cnt], iovs, i, j);
    }
  }

  // ---------- the bytes themselves ----------

  ghost predicate Mapped(mem: seq<bv8>, addrs: seq<nat>) {
    forall t :: 0 <= t < |addrs| ==> addrs[t] < |mem|
  }

  ghost function BytesAt(mem: seq<bv8>, addrs: seq<nat>): seq<bv8>
    requires Mapped(mem, addrs)
  {
    seq(|addrs|, t requires 0 <= t < |addrs| => mem[addrs[t]])
  }

  /** Collects the bytes that a list of segments names. */
  method Gather(mem: seq<bv8>, segments: seq<Iovec>) returns (bytes: seq<bv8>)
    requires Mapped(mem, Stream(segments))
    ensures bytes == BytesAt(mem, Stream(segments))
  {
    bytes := [];
    for k := 0 to |segments|
      invariant Stream(segments[..k]) <= Stream(segments) && bytes == BytesAt(mem, Stream(segments[..k]))
    {
      var v := segments[k];
      NextSegment(segments, k);
      StreamPrefix(segments, k + 1);
      if v.len > 0 {
        InMemory(mem, segments, k, v.len - 1);
        bytes := bytes + mem[v.base..v.base + v.len];
      }
    }
    assert segments[..|segments|] == segments;
  }

  lemma NextSegment(segments: seq<Iovec>, k: nat)
    requires k < |segments|
    ensures Stream(segments[..k + 1]) == Stream(segments[..k]) + Bytes(segments[k].base, segments[k].len)
  {
    assert segments[..k + 1] == segments[..k] + [segments[k]];
    StreamSnoc(segments[..k], segments[k]);
  }

  lemma StreamPrefix(segments: seq<Iovec>, k: nat)
    requires k <= |segments|
    ensures Stream(segments[..k]) <= Stream(segments)
  {
    assert segments == segments[..k] + segments[k..];
    StreamConcat(segments[..k], segments[k..]);
  }

  lemma InMemory(mem: seq<bv8>, segments: seq<Iovec>, k: nat, j: nat)
    requires Mapped(mem, Stream(segments)) && k < |segments| && j < segments[k].len
    ensures segments[k].base + j < |mem|
  {
    NextSegment(segments, k);
    StreamPrefix(segments, k + 1);
    var n := |Stream(segments[..k])|;
    assert Stream(segments)[n + j] == Stream(segments[..k + 1])[n + j] == segments[k].base + j;
  }

  /** The stream goes through whole pages, one buffer after the other, all of them in memory. */
  ghost predicate Paged(stream: seq<nat>, buffers: seq<nat>, cnt: nat, mem: seq<bv8>) {
    && cnt <= |buffers| && |stream| == cnt * PAGE_SIZE
    && (forall i :: 0 <= i < cnt ==> buffers[i] + PAGE_SIZE <= |mem|)
    && (forall i: nat, j: nat :: i < cnt && j < PAGE_SIZE ==> ByteAt(stream, buffers, i, j))
  }

  /** The contents of the first `cnt` buffers. */
  ghost function UserPages(mem: seq<bv8>, buffers: seq<nat>, cnt: nat): seq<seq<bv8>>
    requires cnt <= |buffers| && forall i :: 0 <= i < cnt ==> buffers[i] + PAGE_SIZE <= |mem|
  {
    seq(cnt, i requires 0 <= i < cnt => mem[buffers[i]..buffers[i] + PAGE_SIZE])
  }

  lemma PagedMapped(stream: seq<nat>, buffers: seq<nat>, cnt: nat, mem: seq<bv8>)
    requires Paged(stream, buffers, cnt, mem)
    ensures Mapped(mem, stream)
  {
    forall t: nat | t < |stream| ensures stream[t] < |mem| {
      assert t == (t / PAGE_SIZE) * PAGE_SIZE + t % PAGE_SIZE;
      assert ByteAt(stream, buffers, t / PAGE_SIZE, t % PAGE_SIZE);
    }
  }

  /** The pages that a list of segments carries. */
  method GatherPages(mem: seq<bv8>, segments: seq<Iovec>, cnt: nat, ghost buffers: seq<nat>)
    returns (pages: seq<seq<bv8>>)
    requires Paged(Stream(segments), buffers, cnt, mem)
    ensures pages == UserPages(mem, buffers, cnt)
  {
    PagedMapped(Stream(segments), buffers, cnt, mem);
    var bytes := Gather(mem, segments);
    pages := [];
    for i := 0 to cnt
      invariant pages == UserPages(mem, buffers, i)
    {
      var page := bytes[i * PAGE_SIZE..(i + 1) * PAGE_SIZE];
      forall j: nat | j < PAGE_SIZE ensures page[j] == mem[buffers[i] + j] {
        assert ByteAt(Stream(segments), buffers, i, j);
      }
      assert page == mem[buffers[i]..buffers[i] + PAGE_SIZE];
      pages := pages + [page];
    }
  }

  /** The pages that a write request carries, as the driver collects them on its walk of the segments,
      or as the kernel does from the vectors. */
  method CarriedPages(iovs: seq<Iovec>, mem: seq<bv8>, walk: bool, ghost buffers: seq<nat>)
    returns (pages: seq<seq<bv8>>)
    requires |iovs| <= |buffers| && forall i :: 0 <= i < |iovs| ==> iovs[i] == Iovec(buffers[i], PAGE_SIZE)
    requires forall i :: 0 <= i < |iovs| ==> buffers[i] + PAGE_SIZE <= |mem|
    ensures pages == UserPages(mem, buffers, |iovs|)
  {
    PagesLength(iovs);
    forall i: nat, j: nat | i < |iovs| && j < PAGE_SIZE ensures ByteAt(Stream(iovs), buffers, i, j) {
      StreamAt(iovs, PAGE_SIZE, i, j, i * PAGE_SIZE + j);
    }
    var segments := iovs;
    if walk {
      var req := new IoReq(iovs);
      segments := req.Walk(0);
    }
    pages := GatherPages(mem, segments, |iovs|, buffers);
  }

  // ---------- bytes delivered to memory ----------

  /** No address occurs twice. */
  ghost predicate Injective(addrs: seq<nat>) {
    forall t, u :: 0 <= t < u < |addrs| ==> addrs[t] != addrs[u]
  }

  /** Byte `t` is at address `t` of the list; the first `n` of them. */
  ghost predicate Delivered(mem: seq<bv8>, addrs: seq<nat>, bytes: seq<bv8>, n: nat) {
    n <= |addrs| && n <= |bytes| &&
    forall t :: 0 <= t < n ==> addrs[t] < |mem| && mem[addrs[t]] == bytes[t]
  }

  /** Memory away from the addresses is as before. */
  ghost predicate SameElsewhere(mem: seq<bv8>, mem': seq<bv8>, addrs: seq<nat>) {
    |mem| == |mem'| && forall a: nat :: a < |mem| && a !in addrs ==> mem'[a] == mem[a]
  }

  /** Puts the bytes where a list of segments says. */
  method Scatter(mem: array<bv8>, segments: seq<Iovec>, bytes: seq<bv8>)
    requires Mapped(mem[..], Stream(segments)) && Injective(Stream(segments)) && |bytes| == |Stream(segments)|
    modifies mem
    ensures Delivered(mem[..], Stream(segments), bytes, |bytes|)
    ensures SameElsewhere(old(mem[..]), mem[..], Stream(segments))
  {
    ghost var stream := Stream(segments);
    var pos := 0;
    for k := 0 to |segments|
      invariant pos == |Stream(segments[..k])| && pos <= |stream|
      invariant Delivered(mem[..], stream, bytes, pos) && SameElsewhere(old(mem[..]), mem[..], stream)
    {
      NextSegment(segments, k);
      StreamPrefix(segments, k + 1);
      pos := ScatterOne(mem, segments[k], bytes, pos, stream);
    }
    assert segments[..|segments|] == segments;
  }

  /** One segment, whose addresses are those of the stream from `pos` on. */
  method ScatterOne(mem: array<bv8>, v: Iovec, bytes: seq<bv8>, pos: nat, ghost stream: seq<nat>)
    returns (pos': nat)
    requires Mapped(mem[..], stream) && Injective(stream) && |bytes| == |stream| && pos + v.len <= |stream|
    requires stream[pos..pos + v.len] == Bytes(v.base, v.len)
    requires Delivered(mem[..], stream, bytes, pos)
    modifies mem
    ensures pos' == pos + v.len && Delivered(mem[..], stream, bytes, pos')
    ensures SameElsewhere(old(mem[..]), mem[..], stream)
  {
    for j := 0 to v.len
      invariant Delivered(mem[..], stream, bytes, pos + j) && SameElsewhere(old(mem[..]), mem[..], stream)
    {
      assert stream[pos..pos + v.len][j] == v.base + j;
      mem[v.base + j] := bytes[pos + j];
    }
    pos' := pos + v.len;
  }

  /** The buffers of the first `cnt` nodes lie apart from each other, in a memory of `size` bytes. */
  ghost predicate DisjointBuffers(buffers: seq<nat>, cnt: nat, size: nat) {
    && cnt <= |buffers| && (forall i :: 0 <= i < cnt ==> buffers[i] + PAGE_SIZE <= size)
    && (forall i, j :: 0 <= i < j < cnt ==>
          buffers[i] + PAGE_SIZE <= buffers[j] || buffers[j] + PAGE_SIZE <= buffers[i])
  }

  /** Address `a` belongs to none of the buffers. */
  ghost predicate Outside(buffers: seq<nat>, cnt: nat, a: nat)
    requires cnt <= |buffers|
  {
    forall i :: 0 <= i < cnt ==> !(buffers[i] <= a < buffers[i] + PAGE_SIZE)
  }

  lemma PagedAt(stream: seq<nat>, buffers: seq<nat>, cnt: nat, mem: seq<bv8>, t: nat, i: nat, j: nat)
    requires Paged(stream, buffers, cnt, mem) && t < |stream| && i == t / PAGE_SIZE && j == t % PAGE_SIZE
    ensures i < cnt && stream[t] == buffers[i] + j
  {
    assert t == i * PAGE_SIZE + j;
    assert i < cnt;
    assert ByteAt(stream, buffers, i, j);
  }

  lemma PagedInjective(stream: seq<nat>, buffers: seq<nat>, cnt: nat, mem: seq<bv8>)
    requires Paged(stream, buffers, cnt, mem) && DisjointBuffers(buffers, cnt, |mem|)
    ensures Injective(stream)
  {
    forall t, u | 0 <= t < u < |stream| ensures stream[t] != stream[u] {
      PagedAt(stream, buffers, cnt, mem, t, t / PAGE_SIZE, t % PAGE_SIZE);
      PagedAt(stream, buffers, cnt, mem, u, u / PAGE_SIZE, u % PAGE_SIZE);
    }
  }

  lemma OutsideStream(stream: seq<nat>, buffers: seq<nat>, cnt: nat, mem: seq<bv8>, a: nat)
    requires Paged(stream, buffers, cnt, mem) && Outside(buffers, cnt, a)
    ensures a !in stream
  {
    forall t: nat | t < |stream| ensures stream[t] != a {
      PagedAt(stream, buffers, cnt, mem, t, t / PAGE_SIZE, t % PAGE_SIZE);
    }
  }

  /** Buffer `i` holds page `i`. */
  ghost predicate Received(mem: seq<bv8>, buffers: seq<nat>, pages: seq<seq<bv8>>) {
    |pages| <= |buffers| &&
    forall i :: 0 <= i < |pages| ==>
      buffers[i] + PAGE_SIZE <= |mem| && mem[buffers[i]..buffers[i] + PAGE_SIZE] == pages[i]
  }

  function Concat(pages: seq<seq<bv8>>): seq<bv8> {
    if pages == [] then [] else pages[0] + Concat(pages[1..])
  }

  lemma {:induction false} ConcatAt(pages: seq<seq<bv8>>, i: nat, j: nat)
    requires forall m :: 0 <= m < |pages| ==> |pages[m]| == PAGE_SIZE
    requires i < |pages| && j < PAGE_SIZE
    ensures i * PAGE_SIZE + j < |Concat(pages)| && Concat(pages)[i * PAGE_SIZE + j] == pages[i][j]
  {
    if i > 0 {
      ConcatAt(pages[1..], i - 1, j);
      assert i * PAGE_SIZE == (i - 1) * PAGE_SIZE + PAGE_SIZE;
    }
  }

  lemma {:induction false} ConcatLength(pages: seq<seq<bv8>>)
    requires forall m :: 0 <= m < |pages| ==> |pages[m]| == PAGE_SIZE
    ensures |Concat(pages)| == |pages| * PAGE_SIZE
  {
    if pages != [] { ConcatLength(pages[1..]); }
  }

  /** The pages of a read request go to its buffers, as the driver delivers them on its walk of the
      segments, or as the kernel does to the vectors; the rest of memory stays. */
  method DeliverPages(iovs: seq<Iovec>, mem: array<bv8>, walk: bool, pages: seq<seq<bv8>>, ghost buffers: seq<nat>)
    requires |iovs| == |pages| && (forall m :: 0 <= m < |pages| ==> |pages[m]| == PAGE_SIZE)
    requires DisjointBuffers(buffers, |iovs|, mem.Length)
    requires forall i :: 0 <= i < |iovs| ==> iovs[i] == Iovec(buffers[i], PAGE_SIZE)
    modifies mem
    ensures Received(mem[..], buffers, pages)
    ensures forall a: nat :: a < mem.Length && Outside(buffers, |iovs|, a) ==> mem[a] == old(mem[a])
  {
    PagesLength(iovs);
    ConcatLength(pages);
    forall i: nat, j: nat | i < |iovs| && j < PAGE_SIZE ensures ByteAt(Stream(iovs), buffers, i, j) {
      StreamAt(iovs, PAGE_SIZE, i, j, i * PAGE_SIZE + j);
    }
    var segments := iovs;
    if walk {
      var req := new IoReq(iovs);
      segments := req.Walk(0);
    }
    ghost var stream := Stream(segments);
    PagedMapped(stream, buffers, |iovs|, mem[..]);
    PagedInjective(stream, buffers, |iovs|, mem[..]);
    ghost var before := mem[..];
    Scatter(mem, segments, Concat(pages));
    AllReceived(mem[..], stream, buffers, pages);
    forall a: nat | a < mem.Length && Outside(buffers, |iovs|, a) ensures mem[a] == before[a] {
      OutsideStream(stream, buffers, |iovs|, before, a);
      assert mem[..][a] == before[a];
    }
  }

  lemma AllReceived(mem: seq<bv8>, stream: seq<nat>, buffers: seq<nat>, pages: seq<seq<bv8>>)
    requires Paged(stream, buffers, |pages|, mem) && Delivered(mem, stream, Concat(pages), |stream|)
    requires forall m :: 0 <= m < |pages| ==> |pages[m]| == PAGE_SIZE
    ensures Received(mem, buffers, pages)
  {
    forall i: nat | i < |pages| ensures mem[buffers[i]..buffers[i] + PAGE_SIZE] == pages[i] {
      forall j: nat | j < PAGE_SIZE ensures mem[buffers[i] + j] == pages[i][j] {
        assert ByteAt(stream, buffers, i, j);
        ConcatAt(pages, i, j);
      }
    }
  }
}
