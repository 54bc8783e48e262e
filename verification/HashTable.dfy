/** The hash table: buckets of singly linked chains through the entry array, with move-to-front
    (lib/ssd_cache_mapping.c). */
module HashTables {
  import opened Sequences
  import opened Works
  import opened Hash
  import opened IntrusiveLists

  /** `f` is `e` except for the hash link. */
  ghost predicate SameButHash(e: Entry, f: Entry) {
    f == e.(hashNext := f.hashNext)
  }

  /** Following `hashNext` from `head` visits exactly `c`, so the chain is acyclic. */
  ghost predicate Chained(mem: seq<Entry>, head: nat, c: seq<nat>) {
    && NoDup(c) && head == At(c, 0)
    && (forall i :: 0 <= i < |c| ==> c[i] < |mem|)
    && (forall i {:trigger mem[c[i]]} :: 0 <= i < |c| ==> mem[c[i]].hashNext == At(c, i + 1))
  }

  /** Every chain is threaded, and each hashed entry is in the chain of its own bucket only. */
  ghost predicate Buckets(mem: seq<Entry>, buckets: seq<nat>, chains: seq<seq<nat>>,
                          hashed: set<nat>, bits: nat) {
    && |mem| < NIL && 1 <= bits <= 32 && |buckets| == |chains| == Pow2(bits)
    && (forall h :: 0 <= h < |chains| ==> Chained(mem, buckets[h], chains[h]))
    && (forall e: nat :: e in hashed ==> e < |mem|)
    && (forall h :: 0 <= h < |chains| ==> Homes(mem, chains[h], hashed, bits, h))
  }

  /** Chain `c` has exactly the hashed entries that belong in bucket `h`. */
  ghost predicate Homes(mem: seq<Entry>, c: seq<nat>, hashed: set<nat>, bits: nat, h: nat) {
    forall e: nat :: e in c <==> e in hashed && e < |mem| && Bucket(mem[e].key, bits) == h
  }

  /** Which entries a chain has depends on their keys only. */
  lemma HomesFrame(mem: seq<Entry>, mem': seq<Entry>, c: seq<nat>, hashed: set<nat>, hashed': set<nat>,
                   bits: nat, h: nat)
    requires Homes(mem, c, hashed, bits, h) && |mem'| == |mem|
    requires forall e: nat :: e < |mem| && Bucket(mem[e].key, bits) == h ==> (e in hashed <==> e in hashed')
    requires forall e: nat :: e < |mem| && (e in hashed || e in hashed') ==> mem'[e].key == mem[e].key
    ensures Homes(mem', c, hashed', bits, h)
  {
  }

  lemma PushChain(mem: seq<Entry>, c: seq<nat>, e: nat)
    requires |mem| < NIL && Chained(mem, At(c, 0), c) && e < |mem| && e !in c
    ensures Chained(mem[e := mem[e].(hashNext := At(c, 0))], e, [e] + c)
  {
    var mem', r := mem[e := mem[e].(hashNext := At(c, 0))], [e] + c;
    forall i {:trigger mem'[r[i]]} | 0 <= i < |r|
      ensures r[i] < |mem'| && mem'[r[i]].hashNext == At(r, i + 1)
    {
      if i > 0 { assert mem[c[i - 1]].hashNext == At(c, i); }
    }
  }

  /** What unlinking position `k` of chain `c` does to the entries. */
  ghost function Skip(mem: seq<Entry>, c: seq<nat>, k: nat): seq<Entry>
    requires k < |c| && forall i :: 0 <= i < |c| ==> c[i] < |mem|
  {
    if k == 0 then mem else mem[c[k - 1] := mem[c[k - 1]].(hashNext := At(c, k + 1))]
  }

  lemma CutChain(mem: seq<Entry>, c: seq<nat>, k: nat, r: seq<nat>)
    requires |mem| < NIL && Chained(mem, At(c, 0), c) && k < |c|
    requires r == c[..k] + c[k + 1..] && NoDup(r)
    ensures Chained(Skip(mem, c, k), At(r, 0), r)
  {
    var mem' := Skip(mem, c, k);
    forall i {:trigger mem'[r[i]]} | 0 <= i < |r|
      ensures r[i] < |mem'| && mem'[r[i]].hashNext == At(r, i + 1)
    {
      AtWithout(c, r, k, i);
      AtWithout(c, r, k, i + 1);
      var m := if i < k then i else i + 1;
      assert mem[c[m]].hashNext == At(c, m + 1);
    }
  }

  /** A chain depends on the hash links of its own entries only. */
  lemma ChainFrame(mem: seq<Entry>, mem': seq<Entry>, head: nat, c: seq<nat>)
    requires Chained(mem, head, c) && |mem'| == |mem|
    requires forall i :: 0 <= i < |c| && c[i] < |mem| ==> mem'[c[i]].hashNext == mem[c[i]].hashNext
    ensures Chained(mem', head, c)
  {
    forall i {:trigger mem'[c[i]]} | 0 <= i < |c| ensures mem'[c[i]].hashNext == At(c, i + 1) {
      assert mem[c[i]].hashNext == At(c, i + 1);
    }
  }

  lemma PushBucket(mem: seq<Entry>, buckets: seq<nat>, chains: seq<seq<nat>>,
                   hashed: set<nat>, bits: nat, h: nat, e: nat)
    requires Buckets(mem, buckets, chains, hashed, bits)
    requires e < |mem| && e !in hashed && h < |chains| && Bucket(mem[e].key, bits) == h
    ensures Buckets(mem[e := mem[e].(hashNext := buckets[h])], buckets[h := e],
                    chains[h := [e] + chains[h]], hashed + {e}, bits)
  {
    var mem' := mem[e := mem[e].(hashNext := buckets[h])];
    PushChain(mem, chains[h], e);
    forall g | 0 <= g < |chains| && g != h ensures Chained(mem', buckets[g], chains[g]) {
      assert e !in chains[g];
      ChainFrame(mem, mem', buckets[g], chains[g]);
    }
    var chains' := chains[h := [e] + chains[h]];
    forall g | 0 <= g < |chains| ensures Homes(mem', chains'[g], hashed + {e}, bits, g) {
      assert Homes(mem, chains[g], hashed, bits, g);
    }
  }

  lemma CutBucket(mem: seq<Entry>, buckets: seq<nat>, chains: seq<seq<nat>>,
                  hashed: set<nat>, bits: nat, h: nat, k: nat)
    requires Buckets(mem, buckets, chains, hashed, bits)
    requires h < |chains| && k < |chains[h]|
    ensures var r := Without(chains[h], chains[h][k]);
      Buckets(Skip(mem, chains[h], k), buckets[h := At(r, 0)], chains[h := r],
              hashed - {chains[h][k]}, bits)
  {
    var c := chains[h];
    var mem', r := Skip(mem, c, k), Without(c, c[k]);
    WithoutAt(c, k);
    WithoutNoDup(c, c[k]);
    CutChain(mem, c, k, r);
    assert c[k] in c;
    if k > 0 { assert c[k - 1] in c; }
    forall g | 0 <= g < |chains| && g != h ensures Chained(mem', buckets[g], chains[g]) {
      ChainFrame(mem, mem', buckets[g], chains[g]);
    }
    var chains' := chains[h := r];
    forall g | 0 <= g < |chains| ensures Homes(mem', chains'[g], hashed - {c[k]}, bits, g) {
      if g != h { HomesFrame(mem, mem', chains[g], hashed, hashed - {c[k]}, bits, g); }
    }
  }

  /** An entry found with no predecessor is the first one. */
  lemma FrontAgain(c: seq<nat>, k: nat, e: nat)
    requires NoDup(c) && k < |c| && c[k] == e && At(c, k - 1) == NIL && forall i :: 0 <= i < |c| ==> c[i] < NIL
    ensures c == [e] + Without(c, e)
  {
    WithoutHead(c);
  }

  class HashTable {
    const bits: nat
    const buckets: array<nat>
    ghost var chains: seq<seq<nat>>
    ghost var hashed: set<nat>

    ghost predicate Valid(mem: seq<Entry>)
      reads this, buckets
    {
      Buckets(mem, buckets[..], chains, hashed, bits)
    }

    ghost predicate Empty()
      reads this, buckets
    {
      && hashed == {} && buckets.Length == |chains| == Pow2(bits)
      && forall h :: 0 <= h < |chains| ==> chains[h] == [] && buckets[h] == NIL
    }

    lemma EmptyIsValid(mem: seq<Entry>)
      requires Empty() && |mem| < NIL && 1 <= bits <= 32
      ensures Valid(mem)
    {
    }

    constructor (bits: nat)
      requires 1 <= bits <= 32
      ensures this.bits == bits && fresh(buckets)
      ensures Empty()
    {
      this.bits := bits;
      buckets := new nat[Pow2(bits)](_ => NIL);
      chains := seq(Pow2(bits), _ => []);
      hashed := {};
    }

    /** Puts `e` in front of bucket `h`. */
    method LinkFirst(es: array<Entry>, h: nat, e: nat)
      requires Valid(es[..])
      requires e < es.Length && e !in hashed && h < buckets.Length && Bucket(es[e].key, bits) == h
      modifies this, buckets, es
      ensures Valid(es[..]) && hashed == old(hashed) + {e}
      ensures chains == old(chains)[h := [e] + old(chains)[h]]
      ensures es[..] == old(es[..])[e := old(es[e]).(hashNext := es[e].hashNext)]
    {
      PushBucket(es[..], buckets[..], chains, hashed, bits, h, e);
      ghost var mem, bs := es[..], buckets[..];
      es[e] := es[e].(hashNext := buckets[h]);
      buckets[h] := e;
      chains := chains[h := [e] + chains[h]];
      hashed := hashed + {e};
      assert es[..] == mem[e := mem[e].(hashNext := bs[h])];
      assert buckets[..] == bs[h := e];
    }

    /** Searches bucket `h`; `k` is the position of the entry found. */
    method Scan(es: array<Entry>, h: nat, key: Key) returns (e: nat, prev: nat, ghost k: nat)
      requires Valid(es[..]) && h < buckets.Length
      ensures e == NIL ==> forall b: nat :: b in chains[h] && b < es.Length ==> es[b].key != key
      ensures e != NIL ==>
        && k < |chains[h]| && chains[h][k] == e && e < es.Length && es[e].key == key
        && prev == At(chains[h], k - 1)
        && forall i :: 0 <= i < k ==> chains[h][i] < es.Length && es[chains[h][i]].key != key
    {
      ghost var c := chains[h];
      assert Chained(es[..], buckets[..][h], c);
      e, prev, k := buckets[h], NIL, 0;
      while e != NIL
        invariant 0 <= k <= |c| && e == At(c, k) && prev == At(c, k - 1)
        invariant forall i :: 0 <= i < k ==> es[..][c[i]].key != key
        decreases |c| - k
      {
        assert es[..][c[k]].hashNext == At(c, k + 1);
        if es[e].key == key {
          return;
        }
        prev := e;
        e := es[e].hashNext;
        k := k + 1;
      }
      assert k == |c|;
      forall b: nat | b in c && b < es.Length ensures es[b].key != key {
        var i :| 0 <= i < |c| && c[i] == b;
        assert es[..][c[i]].key != key;
      }
    }

    /** Takes the `k`-th entry `e` out of bucket `h`. */
    method Unlink(es: array<Entry>, h: nat, e: nat, prev: nat, ghost k: nat)
      requires Valid(es[..]) && h < buckets.Length
      requires k < |chains[h]| && chains[h][k] == e < es.Length && prev == At(chains[h], k - 1)
      modifies this, buckets, es
      ensures Valid(es[..]) && hashed == old(hashed) - {e}
      ensures chains == old(chains)[h := Without(old(chains)[h], e)]
      ensures forall i :: 0 <= i < es.Length ==> SameButHash(old(es[..])[i], es[..][i])
    {
      ghost var mem, bs, c := es[..], buckets[..], chains[h];
      CutBucket(mem, bs, chains, hashed, bits, h, k);
      assert Chained(mem, bs[h], c);
      assert mem[c[k]].hashNext == At(c, k + 1);
      AtWithout(c, c[..k] + c[k + 1..], k, 0);
      WithoutAt(c, k);
      if prev != NIL {
        es[prev] := es[prev].(hashNext := es[e].hashNext);
      } else {
        buckets[h] := es[e].hashNext;
      }
      chains := chains[h := Without(c, e)];
      hashed := hashed - {e};
      assert es[..] == Skip(mem, c, k);
      assert buckets[..] == bs[h := At(Without(c, e), 0)];
    }

    /** Puts `e` in front of the bucket of its hash. */
    method Insert(es: array<Entry>, e: nat)
      requires Valid(es[..]) && e < es.Length && e !in hashed
      modifies this, buckets, es
      ensures Valid(es[..]) && hashed == old(hashed) + {e}
      ensures var h := Bucket(old(es[e]).key, bits);
        h < old(|chains|) && chains == old(chains)[h := [e] + old(chains)[h]]
      ensures es[..] == old(es[..])[e := old(es[e]).(hashNext := es[e].hashNext)]
    {
      var h := Hash32(es[e].key, bits);
      LinkFirst(es, h, e);
    }

    /** Finds an entry with the key exactly if one is hashed, and moves it to the front of its
        bucket. The set of hashed entries and their keys stay as they are. */
    method Lookup(es: array<Entry>, key: Key) returns (e: nat)
      requires Valid(es[..])
      modifies this, buckets, es
      ensures Valid(es[..]) && hashed == old(hashed)
      ensures forall i :: 0 <= i < es.Length ==> SameButHash(old(es[..])[i], es[..][i])
      ensures e == NIL ==> forall b: nat :: b in hashed && b < es.Length ==> es[..][b].key != key
      ensures e != NIL ==> e in hashed && e < es.Length && es[..][e].key == key
      ensures Bucket(key, bits) < old(|chains|)
      ensures chains == if e == NIL then old(chains)
        else old(chains)[Bucket(key, bits) := [e] + Without(old(chains)[Bucket(key, bits)], e)]
    {
      var h := Hash32(key, bits);
      var prev; ghost var k;
      e, prev, k := Scan(es, h, key);
      ghost var c := chains[h];
      assert Chained(es[..], buckets[..][h], c);
      if e != NIL && prev != NIL {
        assert e in chains[h];
        Unlink(es, h, e, prev, k);
        LinkFirst(es, h, e);
      } else if e != NIL {
        FrontAgain(c, k, e);
      }
    }

    /** Entry `r` is the first of chain `c` that has the key. */
    ghost predicate FirstOf(mem: seq<Entry>, c: seq<nat>, key: Key, r: nat) {
      exists k :: 0 <= k < |c| && c[k] == r && r < |mem| && mem[r].key == key &&
        forall i :: 0 <= i < k ==> c[i] < |mem| && mem[c[i]].key != key
    }

    /** Unhashes the first entry `r` of the bucket that has the key of `e`; that is `e` itself when
        no other hashed entry has its key. */
    method Remove(es: array<Entry>, e: nat) returns (ghost r: nat)
      requires Valid(es[..]) && e < es.Length && e in hashed
      modifies this, buckets, es
      ensures Valid(es[..]) && hashed == old(hashed) - {r}
      ensures Bucket(old(es[e]).key, bits) < old(|chains|)
      ensures chains == old(chains)[Bucket(old(es[e]).key, bits) :=
        Without(old(chains)[Bucket(old(es[e]).key, bits)], r)]
      ensures FirstOf(old(es[..]), old(chains)[Bucket(old(es[e]).key, bits)], old(es[e]).key, r)
      ensures (forall i: nat :: i in old(hashed) && i < es.Length && old(es[..])[i].key == old(es[e]).key ==>
        i == e) ==> r == e
      ensures r in old(hashed) && r < es.Length && es[..][r].key == es[..][e].key
      ensures forall i :: 0 <= i < es.Length ==> SameButHash(old(es[..])[i], es[..][i])
    {
      var key := es[e].key;
      var h := Hash32(key, bits);
      var found, prev; ghost var k;
      found, prev, k := Scan(es, h, key);
      assert e in chains[h];
      assert found in chains[h];
      assert FirstOf(es[..], chains[h], key, found);
      Unlink(es, h, found, prev, k);
      r := found;
    }
  }
}
