/** Crash-dump ids (src/sources/crashdump.rs:310-325): 64-bit FNV-1a, as in section 2
    of draft-eastlake-fnv, with the top bit masked off. Words are integers, so the
    wrap-around of `wrapping_mul` is written out. */
module Fnv {
  import opened Prelude

  const OFFSET_BASIS: nat := 0xcbf2_9ce4_8422_2325

  /** Bitwise exclusive or of the low w bits. */
  function Xor(a: nat, b: nat, w: nat): nat
  {
    if w == 0 then 0 else 2 * Xor(a / 2, b / 2, w - 1) + (a + b) % 2
  }

  function Pow2(w: nat): (p: nat)
    ensures p > 0
  {
    if w == 0 then 1 else 2 * Pow2(w - 1)
  }

  lemma {:induction false} XorRange(a: nat, b: nat, w: nat)
    ensures Xor(a, b, w) < Pow2(w)
  {
    if w > 0 {
      XorRange(a / 2, b / 2, w - 1);
    }
  }

  /** Applying the same word twice gives the first one back, on either side. */
  lemma {:induction false} XorInverse(a: nat, b: nat, w: nat)
    requires a < Pow2(w) && b < Pow2(w)
    ensures Xor(Xor(a, b, w), b, w) == a && Xor(a, Xor(a, b, w), w) == b
  {
    if w > 0 {
      XorInverse(a / 2, b / 2, w - 1);
      var x := Xor(a, b, w);
      Halves(Xor(a / 2, b / 2, w - 1), (a + b) % 2);
      Parity(a, b);
      assert Xor(x, b, w) == 2 * (a / 2) + a % 2;
      assert Xor(a, x, w) == 2 * (b / 2) + b % 2;
    }
  }

  lemma Halves(q: nat, r: nat)
    requires r < 2
    ensures (2 * q + r) / 2 == q && (2 * q + r) % 2 == r
  {
  }

  lemma Parity(a: nat, b: nat)
    ensures forall x: nat :: x % 2 == (a + b) % 2 ==> (x + b) % 2 == a % 2 && (a + x) % 2 == b % 2
  {
  }

  lemma ByteRange()
    ensures Pow2(8) == 256
  {
    assert Pow2(4) == 2 * Pow2(3) == 16 && Pow2(6) == 2 * Pow2(5) == 64;
  }

  /** `h ^ (b as u64)`: only the low byte changes. */
  function XorLow(h: nat, b: Byte): nat
  {
    h - h % 256 + Xor(h % 256, b, 8)
  }

  /** One round on 64-bit words. */
  function Mix(h: nat, b: Byte): nat
  {
    (XorLow(h, b) * 0x100_0000_01b3) % 0x1_0000_0000_0000_0000
  }

  function Hash(h: nat, bytes: seq<Byte>): nat
    decreases |bytes|
  {
    if bytes == [] then h else Hash(Mix(h, bytes[0]), bytes[1..])
  }

  /** `to_le_bytes` of a w-byte word. */
  function LeBytes(n: nat, w: nat): (r: seq<Byte>)
    ensures |r| == w
  {
    if w == 0 then [] else [n % 256] + LeBytes(n / 256, w - 1)
  }

  function CoreDumpId(fname: seq<Byte>, mtime: nat): nat
  {
    Hash(Hash(OFFSET_BASIS, fname), LeBytes(mtime, 8)) % 0x8000_0000_0000_0000
  }

  // ---- what is hashed, and known values -----------------------------------------------------

  /** One round, given the exclusive or of the low bytes. */
  lemma MixKnown(h: nat, b: Byte, x: nat, r: nat)
    requires Xor(h % 256, b, 8) == x
    requires ((h - h % 256 + x) * 0x100_0000_01b3) % 0x1_0000_0000_0000_0000 == r
    ensures Mix(h, b) == r
  {
    hide Xor;
  }

  lemma XorPeel(a: nat, b: nat, w: nat)
    ensures w > 0 ==> Xor(a, b, w) == 2 * Xor(a / 2, b / 2, w - 1) + (a + b) % 2
    ensures w == 0 ==> Xor(a, b, w) == 0
  {
  }

  lemma XorKnown()
    ensures Xor(0x25, 0x61, 8) == 0x44
  {
    hide Xor;
    XorPeel(0x25, 0x61, 8);
    XorPeel(0x12, 0x30, 7);
    XorPeel(0x9, 0x18, 6);
    XorPeel(0x4, 0xc, 5);
    XorPeel(0x2, 0x6, 4);
    XorPeel(0x1, 0x3, 3);
    XorPeel(0, 1, 2);
    XorPeel(0, 0, 1);
    XorPeel(0, 0, 0);
  }

  /** Known values of 64-bit FNV-1a: of no bytes, and of "a". */
  lemma KnownValues()
    ensures Hash(OFFSET_BASIS, []) == 0xcbf2_9ce4_8422_2325
    ensures Hash(OFFSET_BASIS, [0x61]) == 0xaf63_dc4c_8601_ec8c
  {
    hide Xor, Mix;
    XorKnown();
    MixKnown(OFFSET_BASIS, 0x61, 0x44, 0xaf63_dc4c_8601_ec8c);
  }

  lemma LeBytesStep(n: nat, w: nat)
    requires w > 0
    ensures LeBytes(n, w)[0] == n % 256 && LeBytes(n, w)[1..] == LeBytes(n / 256, w - 1)
  {
  }

  /** Bytes from the least significant one on. */
  function FromLe(bytes: seq<Byte>): nat
  {
    if bytes == [] then 0 else bytes[0] + 256 * FromLe(bytes[1..])
  }

  function Pow256(w: nat): (p: nat)
    ensures p > 0
  {
    if w == 0 then 1 else 256 * Pow256(w - 1)
  }

  lemma {:induction false} LeBytesValue(n: nat, w: nat)
    requires n < Pow256(w)
    ensures FromLe(LeBytes(n, w)) == n
  {
    if w > 0 {
      LeBytesStep(n, w);
      LeBytesValue(n / 256, w - 1);
    }
  }

  lemma {:induction false} HashConcat(h: nat, a: seq<Byte>, b: seq<Byte>)
    ensures Hash(h, a + b) == Hash(Hash(h, a), b)
    decreases |a|
  {
    hide Mix;
    if a == [] {
      assert a + b == b;
    } else {
      assert (a + b)[1..] == a[1..] + b;
      HashConcat(Mix(h, a[0]), a[1..], b);
    }
  }

  /** The id is the hash of the name's bytes followed by the eight bytes of the modification
      time, least significant first, without its top bit. */
  lemma IdHashes(fname: seq<Byte>, mtime: nat) returns (le: seq<Byte>)
    requires mtime < 0x1_0000_0000_0000_0000
    ensures |le| == 8 && FromLe(le) == mtime
    ensures CoreDumpId(fname, mtime) == Hash(0xcbf2_9ce4_8422_2325, fname + le) % 0x8000_0000_0000_0000
  {
    le := LeBytes(mtime, 8);
    assert Pow256(8) == 0x1_0000_0000_0000_0000 by {
      assert Pow256(2) == 0x1_0000 && Pow256(4) == 256 * (256 * Pow256(2)) && Pow256(6) == 256 * (256 * Pow256(4));
    }
    LeBytesValue(mtime, 8);
    hide Hash, LeBytes, FromLe;
    HashConcat(OFFSET_BASIS, fname, le);
  }

  // ---- the same machine on 63-bit words --------------------------------------------------

  function Mix63(h: nat, b: Byte): nat
  {
    (XorLow(h, b) * 0x100_0000_01b3) % 0x8000_0000_0000_0000
  }

  function Hash63(h: nat, bytes: seq<Byte>): nat
    decreases |bytes|
  {
    if bytes == [] then h else Hash63(Mix63(h, bytes[0]), bytes[1..])
  }

  /** The remainder is what is left after taking out a multiple. */
  lemma Remainder(x: nat, q: nat, r: nat)
    requires x == 0x8000_0000_0000_0000 * q + r && r < 0x8000_0000_0000_0000
    ensures x % 0x8000_0000_0000_0000 == r
  {
  }

  lemma XorLowHigh(h: nat, b: Byte)
    ensures XorLow(h, b) / 256 == h / 256 && XorLow(h, b) % 256 == Xor(h % 256, b, 8)
  {
    XorRange(h % 256, b, 8);
    ByteRange();
    hide Xor, Pow2;
  }

  lemma LowByte(q: nat, r: nat)
    ensures (0x8000_0000_0000_0000 * q + r) % 256 == r % 256
  {
    assert 0x8000_0000_0000_0000 * q + r == 256 * (0x80_0000_0000_0000 * q + r / 256) + r % 256;
  }

  lemma XorLowRange(r: nat, b: Byte)
    requires r < 0x8000_0000_0000_0000
    ensures XorLow(r, b) < 0x8000_0000_0000_0000
  {
    XorLowHigh(r, b);
    hide XorLow;
    assert XorLow(r, b) / 256 < 0x80_0000_0000_0000;
  }

  lemma XorLowMod(h: nat, b: Byte)
    ensures XorLow(h, b) % 0x8000_0000_0000_0000 == XorLow(h % 0x8000_0000_0000_0000, b)
  {
    var q, r := h / 0x8000_0000_0000_0000, h % 0x8000_0000_0000_0000;
    LowByte(q, r);
    XorLowRange(r, b);
    hide Xor;
    assert XorLow(h, b) == 0x8000_0000_0000_0000 * q + XorLow(r, b);
    hide XorLow;
    Remainder(XorLow(h, b), q, XorLow(r, b));
  }

  lemma MixMod(h: nat, b: Byte)
    ensures Mix(h, b) % 0x8000_0000_0000_0000 == Mix63(h % 0x8000_0000_0000_0000, b)
  {
    XorLowMod(h, b);
    var x := XorLow(h, b);
    var q, r := x / 0x8000_0000_0000_0000, x % 0x8000_0000_0000_0000;
    hide Xor, XorLow;
    var y := r * 0x100_0000_01b3;
    Remainder(x * 0x100_0000_01b3, q * 0x100_0000_01b3 + y / 0x8000_0000_0000_0000, y % 0x8000_0000_0000_0000);
    var z := x * 0x100_0000_01b3;
    var w := z / 0x1_0000_0000_0000_0000;
    Remainder(z, 2 * w + Mix(h, b) / 0x8000_0000_0000_0000, Mix(h, b) % 0x8000_0000_0000_0000);
  }

  /** Masking the result is the same as running every round on 63-bit words. */
  lemma {:induction false} HashMod(h: nat, bytes: seq<Byte>)
    ensures Hash(h, bytes) % 0x8000_0000_0000_0000 == Hash63(h % 0x8000_0000_0000_0000, bytes)
    decreases |bytes|
  {
    if bytes != [] {
      MixMod(h, bytes[0]);
      HashMod(Mix(h, bytes[0]), bytes[1..]);
    }
  }

  // ---- rounds are injective ---------------------------------------------------------------

  /** The prime is odd, so it has an inverse modulo 2^63. */
  lemma TimesPrimeInjective(a: nat, c: nat)
    requires a < 0x8000_0000_0000_0000 && c < 0x8000_0000_0000_0000
    requires (a * 0x100_0000_01b3) % 0x8000_0000_0000_0000 == (c * 0x100_0000_01b3) % 0x8000_0000_0000_0000
    ensures a == c
  {
    var t := a * 0x100_0000_01b3 / 0x8000_0000_0000_0000 - c * 0x100_0000_01b3 / 0x8000_0000_0000_0000;
    assert (a - c) * 0x100_0000_01b3 == 0x8000_0000_0000_0000 * t;
    assert 0x100_0000_01b3 * 0x4e96_5057_aff6_957b == 1 + 0x8000_0000_0000_0000 * 0x9d_2ca0_b06b;
    var k := 0x4e96_5057_aff6_957b * t - 0x9d_2ca0_b06b * (a - c);
    assert a - c == 0x8000_0000_0000_0000 * k;
  }

  lemma XorLowInjective(h: nat, g: nat, b: Byte, c: Byte)
    ensures XorLow(h, b) == XorLow(g, b) ==> h == g
    ensures XorLow(h, b) == XorLow(h, c) ==> b == c
  {
    XorLowHigh(h, b);
    XorLowHigh(g, b);
    XorLowHigh(h, c);
    ByteRange();
    XorInverse(h % 256, b, 8);
    XorInverse(g % 256, b, 8);
    XorInverse(h % 256, c, 8);
    hide XorLow, Xor, Pow2;
  }

  lemma RoundInjective(h: nat, g: nat, b: Byte, c: Byte)
    requires h < 0x8000_0000_0000_0000 && g < 0x8000_0000_0000_0000
    ensures Mix63(h, b) == Mix63(g, b) ==> h == g
    ensures Mix63(h, b) == Mix63(h, c) ==> b == c
  {
    hide XorLow;
    XorLowRange(h, b);
    XorLowRange(g, b);
    XorLowRange(h, c);
    XorLowInjective(h, g, b, c);
    if Mix63(h, b) == Mix63(g, b) {
      TimesPrimeInjective(XorLow(h, b), XorLow(g, b));
    }
    if Mix63(h, b) == Mix63(h, c) {
      TimesPrimeInjective(XorLow(h, b), XorLow(h, c));
    }
  }

  /** A common suffix neither merges nor separates two states. */
  lemma {:induction false} SuffixInjective(h: nat, g: nat, bytes: seq<Byte>)
    requires h < 0x8000_0000_0000_0000 && g < 0x8000_0000_0000_0000
    ensures Hash63(h, bytes) == Hash63(g, bytes) <==> h == g
    decreases |bytes|
  {
    if bytes != [] {
      hide XorLow;
      RoundInjective(h, g, bytes[0], bytes[0]);
      SuffixInjective(Mix63(h, bytes[0]), Mix63(g, bytes[0]), bytes[1..]);
    }
  }

  lemma {:induction false} Hash63Concat(h: nat, a: seq<Byte>, b: seq<Byte>)
    ensures Hash63(h, a + b) == Hash63(Hash63(h, a), b)
    ensures h < 0x8000_0000_0000_0000 ==> Hash63(h, a) < 0x8000_0000_0000_0000
    decreases |a|
  {
    hide Mix63;
    if a == [] {
      assert a + b == b;
    } else {
      assert (a + b)[1..] == a[1..] + b;
      Mix63Range(h, a[0]);
      Hash63Concat(Mix63(h, a[0]), a[1..], b);
    }
  }

  lemma Mix63Range(h: nat, b: Byte)
    ensures Mix63(h, b) < 0x8000_0000_0000_0000
  {
    hide XorLow;
  }

  /** The bytes an id is computed from. */
  function Identity(fname: seq<Byte>, mtime: nat): seq<Byte> { fname + LeBytes(mtime, 8) }

  lemma IdIsHash63(fname: seq<Byte>, mtime: nat)
    ensures CoreDumpId(fname, mtime) == Hash63(OFFSET_BASIS % 0x8000_0000_0000_0000, Identity(fname, mtime))
  {
    hide Hash, Hash63;
    HashMod(OFFSET_BASIS, fname);
    HashMod(Hash(OFFSET_BASIS, fname), LeBytes(mtime, 8));
    Hash63Concat(OFFSET_BASIS % 0x8000_0000_0000_0000, fname, LeBytes(mtime, 8));
  }

  lemma OneByteMatters(h0: nat, before: seq<Byte>, x: Byte, y: Byte, after: seq<Byte>)
    requires h0 < 0x8000_0000_0000_0000 && x != y
    ensures Hash63(h0, before + ([x] + after)) != Hash63(h0, before + ([y] + after))
    ensures Hash63(h0, before + ([x] + after)) < 0x8000_0000_0000_0000
  {
    hide Mix63;
    var h := Hash63(h0, before);
    Hash63Concat(h0, before, [x] + after);
    Hash63Concat(h0, before, [y] + after);
    Hash63Concat(h, [x] + after, []);
    Mix63Range(h, x);
    Mix63Range(h, y);
    RoundInjective(h, h, x, y);
    assert ([x] + after)[1..] == after && ([y] + after)[1..] == after;
    SuffixInjective(Mix63(h, x), Mix63(h, y), after);
  }

  /** Two records whose identity bytes have the same length and differ in exactly one
      place always get different ids, and every id is below 2^63. */
  lemma OneByteSeparates(fname1: seq<Byte>, mtime1: nat, fname2: seq<Byte>, mtime2: nat, i: nat)
    requires var a, b := Identity(fname1, mtime1), Identity(fname2, mtime2);
      && |a| == |b| && i < |a| && a[i] != b[i]
      && forall j :: 0 <= j < |a| && j != i ==> a[j] == b[j]
    ensures CoreDumpId(fname1, mtime1) != CoreDumpId(fname2, mtime2)
    ensures CoreDumpId(fname1, mtime1) < 0x8000_0000_0000_0000
  {
    hide CoreDumpId, Identity, Hash63;
    var a, b := Identity(fname1, mtime1), Identity(fname2, mtime2);
    IdIsHash63(fname1, mtime1);
    IdIsHash63(fname2, mtime2);
    assert a == a[..i] + ([a[i]] + a[i + 1..]) && b == a[..i] + ([b[i]] + a[i + 1..]);
    OneByteMatters(OFFSET_BASIS % 0x8000_0000_0000_0000, a[..i], a[i], b[i], a[i + 1..]);
  }

  /** `core_dump_id`: the word is updated in place, byte by byte. */
  method ComputeId(fname: seq<Byte>, mtime: nat) returns (id: nat)
    ensures id == CoreDumpId(fname, mtime)
  {
    var h := MixAll(OFFSET_BASIS, fname);
    h := MixAll(h, LeBytes(mtime, 8));
    id := h % 0x8000_0000_0000_0000;
  }

  /** The `mix` closure. */
  method MixAll(start: nat, bytes: seq<Byte>) returns (h: nat)
    ensures h == Hash(start, bytes)
  {
    hide Mix;
    h := start;
    var i := 0;
    while i < |bytes|
      invariant 0 <= i <= |bytes|
      invariant Hash(h, bytes[i..]) == Hash(start, bytes)
    {
      assert bytes[i..][1..] == bytes[i + 1..];
      h := Mix(h, bytes[i]);
      i := i + 1;
    }
  }
}
