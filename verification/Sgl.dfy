/** The scatter-gather cursor through which the NVMe driver walks a request's buffers (lib/spdk.c). */
module ScatterGather {
  import opened Hash

  datatype Iovec = Iovec(base: nat, len: nat)

  /** The addresses of `len` bytes from `base` on. */
  ghost function Bytes(base: nat, len: nat): seq<nat> {
    seq(len, i requires 0 <= i => base + i)
  }

  /** The bytes of a list of buffers, in order. */
  ghost function Stream(iovs: seq<Iovec>): seq<nat> {
    if iovs == [] then [] else Bytes(iovs[0].base, iovs[0].len) + Stream(iovs[1..])
  }

  lemma {:induction false} StreamConcat(a: seq<Iovec>, b: seq<Iovec>)
    ensures Stream(a + b) == Stream(a) + Stream(b)
  {
    if a == [] {
      assert a + b == b;
    } else {
      assert (a + b)[1..] == a[1..] + b;
      StreamConcat(a[1..], b);
    }
  }

  lemma Reassociate(a: seq<nat>, b: seq<nat>, c: seq<nat>, rest: seq<nat>)
    requires b + c == rest
    ensures (a + b) + c == a + rest
  {
  }

  lemma StreamSnoc(a: seq<Iovec>, v: Iovec)
    ensures Stream(a + [v]) == Stream(a) + Bytes(v.base, v.len)
  {
    StreamConcat(a, [v]);
    assert Stream([v]) == Bytes(v.base, v.len) + Stream([]);
  }

  lemma OneMore(i: nat, size: nat)
    requires i > 0
    ensures i * size == (i - 1) * size + size
  {
  }

  /** Byte `j` of buffer `i`, when all buffers have the same length. */
  lemma {:induction false} StreamAt(iovs: seq<Iovec>, size: nat, i: nat, j: nat, at: nat)
    requires forall m :: 0 <= m < |iovs| ==> iovs[m].len == size
    requires i < |iovs| && j < size && at == i * size + j
    ensures at < |Stream(iovs)| && Stream(iovs)[at] == iovs[i].base + j
  {
    if i > 0 {
      OneMore(i, size);
      StreamAt(iovs[1..], size, i - 1, j, at - size);
    }
  }

  class IoReq {
    const iovs: seq<Iovec>
    var isCompleted: bool
    var iovPos: nat
    var iovOffset: nat

    /** The cursor is inside an element, or between elements with offset 0. */
    ghost predicate Valid()
      reads this
    {
      && iovPos <= |iovs|
      && (iovOffset != 0 ==> iovPos < |iovs| && iovOffset < iovs[iovPos].len)
      && forall i :: 0 <= i < |iovs| ==> iovs[i].len < WORD
    }

    /** The bytes that the driver has not been given yet. */
    ghost function Remaining(): seq<nat>
      reads this
      requires Valid()
    {
      RemainingFits();
      Stream(iovs[iovPos..])[iovOffset..]
    }

    lemma RemainingFits()
      requires Valid()
      ensures iovOffset <= |Stream(iovs[iovPos..])|
    {
    }

    /** `init_req`. */
    constructor (iovs: seq<Iovec>)
      requires forall i :: 0 <= i < |iovs| ==> iovs[i].len < WORD
      ensures Valid() && this.iovs == iovs && iovPos == 0 && iovOffset == 0 && !isCompleted
    {
      this.iovs := iovs;
      isCompleted, iovPos, iovOffset := false, 0, 0;
    }

    /** `reset_sgl_fn`: what remains is the byte stream from the offset on. */
    method ResetSgl(sglOffset: nat)
      requires Valid() && sglOffset <= |Stream(iovs)|
      modifies this
      ensures Valid() && Remaining() == Stream(iovs)[sglOffset..]
    {
      iovOffset := sglOffset;
      iovPos := 0;
      assert iovs[0..] == iovs;
      while iovPos < |iovs| && iovOffset >= iovs[iovPos].len
        invariant iovPos <= |iovs| && iovOffset <= |Stream(iovs[iovPos..])|
        invariant Stream(iovs[iovPos..])[iovOffset..] == Stream(iovs)[sglOffset..]
        decreases |iovs| - iovPos
      {
        assert iovs[iovPos..][1..] == iovs[iovPos + 1..];
        iovOffset := iovOffset - iovs[iovPos].len;
        iovPos := iovPos + 1;
      }
    }

    /** `next_sge_fn`: hands out the next bytes of the stream and steps past them. */
    method NextSge() returns (address: nat, length: nat)
      requires Valid() && iovPos < |iovs|
      modifies this
      ensures Valid() && iovPos == old(iovPos) + 1
      ensures Bytes(address, length) + Remaining() == old(Remaining())
    {
      assert iovs[iovPos..][1..] == iovs[iovPos + 1..];
      address := iovs[iovPos].base;
      length := iovs[iovPos].len;
      if iovOffset != 0 {
        address := address + iovOffset;
        length := length - iovOffset;
      }
      iovOffset := (iovOffset + length) % WORD;
      if iovOffset == iovs[iovPos].len {
        iovPos := iovPos + 1;
        iovOffset := 0;
      }
    }

    /** The driver's side: reset to an offset, then ask for elements until there are none. The
        segments are the byte stream from the offset on, each byte once and in order. */
    method Walk(sglOffset: nat) returns (segments: seq<Iovec>)
      requires Valid() && sglOffset <= |Stream(iovs)|
      modifies this
      ensures Stream(segments) == Stream(iovs)[sglOffset..]
    {
      ResetSgl(sglOffset);
      segments := [];
      while iovPos < |iovs|
        invariant Valid() && Stream(segments) + Remaining() == Stream(iovs)[sglOffset..]
        decreases |iovs| - iovPos
      {
        ghost var rest := Remaining();
        var address, length := NextSge();
        StreamSnoc(segments, Iovec(address, length));
        Reassociate(Stream(segments), Bytes(address, length), Remaining(), rest);
        segments := segments + [Iovec(address, length)];
      }
      assert iovs[iovPos..] == [];
    }
  }
}
