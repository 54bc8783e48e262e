/** Powers of two, 32-bit wrap-around, and the bucket hash (`hash_32`). */
module Hash {
  import opened Works

  const WORD := 0x1_0000_0000

  function Pow2(n: nat): nat
    ensures Pow2(n) > 0
  {
    if n == 0 then 1 else 2 * Pow2(n - 1)
  }

  lemma {:induction false} Pow2Sum(m: nat, n: nat)
    ensures Pow2(m + n) == Pow2(m) * Pow2(n)
  {
    if m > 0 { Pow2Sum(m - 1, n); }
  }

  lemma Pow2Of32()
    ensures Pow2(32) == WORD
  {
    assert Pow2(8) == 256;
    Pow2Sum(8, 8);
    Pow2Sum(16, 16);
  }

  /** `x << k` on an unsigned 32-bit word. */
  function Shl(x: nat, k: nat): nat {
    (x * Pow2(k)) % WORD
  }

  function Shr(x: nat, k: nat): int {
    x / Pow2(k)
  }

  /** The hash without wrap-around: digits base 33 after the seed and the page number. */
  ghost function Poly(page: nat, name: Name): int {
    if name == [] then 5381 * 33 + page
    else Poly(page, name[..|name| - 1]) * 33 + name[|name| - 1]
  }

  function Power33(n: nat): nat {
    if n == 0 then 1 else 33 * Power33(n - 1)
  }

  /** The characters from `i` on, each times its power of 33. */
  ghost function Digits(name: Name, i: nat): int
    requires i <= |name|
    decreases |name| - i
  {
    if i == |name| then 0 else name[i] * Power33(|name| - 1 - i) + Digits(name, i + 1)
  }

  lemma {:induction false} DigitsSnoc(name: Name, c: CChar, i: nat)
    requires i <= |name|
    ensures Digits(name + [c], i) == 33 * Digits(name, i) + c
    decreases |name| - i
  {
    if i < |name| {
      DigitsSnoc(name, c, i + 1);
      Scaled(name[i], Power33(|name| - 1 - i));
    }
  }

  lemma Scaled(c: int, p: nat)
    ensures c * (33 * p) == 33 * (c * p)
  {
  }

  /** In closed form: the seed, the page number and the characters, each times its power of 33. */
  lemma {:induction false} PolyIs(page: nat, name: Name)
    ensures Poly(page, name) == 5381 * Power33(|name| + 1) + page * Power33(|name|) + Digits(name, 0)
  {
    if name != [] {
      var before := name[..|name| - 1];
      PolyIs(page, before);
      assert name == before + [name[|name| - 1]];
      DigitsSnoc(before, name[|name| - 1], 0);
      Scaled(page, Power33(|name| - 1));
    }
  }

  /** The bucket of a key, when there are `2^bits` buckets. */
  ghost function Bucket(k: Key, bits: nat): (h: nat)
    ensures h < Pow2(bits)
  {
    Poly(k.page, k.name) % Pow2(bits)
  }

  lemma DivModUnique(a: int, d: nat, q: int, r: int)
    requires d > 0 && a == q * d + r && 0 <= r < d
    ensures a / d == q && a % d == r
  {
    var e := a / d - q;
    assert a == (a / d) * d + a % d;
    assert e * d == r - a % d;
    MultipleIsFar(e, d);
  }

  lemma MultipleIsFar(e: int, d: nat)
    ensures e >= 1 ==> e * d >= d
    ensures e <= -1 ==> e * d <= 0 - d
  {
    if e >= 1 {
      assert e * d == (e - 1) * d + d;
    } else if e <= -1 {
      assert e * d == (e + 1) * d - d;
    }
  }

  lemma ModOfMod(a: int, p: nat, q: nat)
    requires p > 0 && q > 0
    ensures a % (p * q) % q == a % q
  {
    var w := p * q;
    var k := a / w;
    assert a == w * k + a % w;
    var r := a % w % q;
    var m := a % w / q;
    assert a % w == q * m + r;
    assert a == (k * p + m) * q + r by {
      assert w * k == (k * p) * q;
    }
    DivModUnique(a, q, k * p + m, r);
  }

  lemma Regroup(q: nat, k: nat, r: int, p: nat)
    ensures (q * k + r) * p == k * (p * q) + r * p
  {
    assert (q * k + r) * p == (q * k) * p + r * p;
    assert (q * k) * p == k * (p * q);
  }

  lemma BelowScaled(r: nat, p: nat, q: nat)
    requires r < q && p > 0
    ensures r * p < p * q
  {
    var d := q - r;
    assert p * q == p * r + p * d;
    assert p * d >= p by { assert p * d == p * (d - 1) + p; }
  }

  /** Scaling by `p` and reducing modulo `p * q` keeps the residue modulo `q`. */
  lemma ScaleMod(v: nat, p: nat, q: nat)
    requires p > 0 && q > 0
    ensures (v * p) % (p * q) == (v % q) * p
  {
    Regroup(q, v / q, v % q, p);
    BelowScaled(v % q, p, q);
    DivModUnique(v * p, p * q, v / q, (v % q) * p);
  }

  /** Shifting up and down again keeps the low bits. */
  lemma ShiftPair(v: nat, bits: nat)
    requires bits <= 32
    ensures Shr(Shl(v, 32 - bits), 32 - bits) == v % Pow2(bits)
  {
    var p, q := Pow2(32 - bits), Pow2(bits);
    Pow2Sum(32 - bits, bits);
    Pow2Of32();
    ScaleMod(v, p, q);
    DivModUnique((v % q) * p, p, v % q, 0);
  }

  /** One round of the loop, in 32 bits. */
  lemma RoundWraps(hash: nat, exact: int, c: int)
    requires hash == exact % WORD
    ensures (Shl(hash, 5) + hash + c) % WORD == (exact * 33 + c) % WORD
  {
    assert Pow2(5) == 32;
    assert exact == WORD * (exact / WORD) + hash;
  }

  /** `hash_32`: the wrapped computation is the exact one modulo the number of buckets, so every
      name and page falls into a bucket. */
  method Hash32(k: Key, bits: nat) returns (h: nat)
    requires 1 <= bits <= 32
    ensures h == Bucket(k, bits)
    ensures h == (5381 * Power33(|k.name| + 1) + k.page * Power33(|k.name|) + Digits(k.name, 0)) % Pow2(bits)
    ensures h < Pow2(bits)
  {
    PolyIs(k.page, k.name);
    var hash: nat := (Shl(5381, 5) + 5381 + k.page) % WORD;
    assert Shl(5381, 5) == 5381 * 32 by { assert Pow2(5) == 32; }
    for i := 0 to |k.name|
      invariant hash == Poly(k.page, k.name[..i]) % WORD
    {
      assert k.name[..i + 1][..i] == k.name[..i];
      RoundWraps(hash, Poly(k.page, k.name[..i]), k.name[i]);
      hash := (Shl(hash, 5) + hash + k.name[i]) % WORD;
    }
    assert k.name[..|k.name|] == k.name;
    ShiftPair(hash, bits);
    Pow2Sum(32 - bits, bits);
    Pow2Of32();
    ModOfMod(Poly(k.page, k.name), Pow2(32 - bits), Pow2(bits));
    h := Shr(Shl(hash, 32 - bits), 32 - bits);
  }
}
