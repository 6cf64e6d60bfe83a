/** UTF-8 as Rust strings hold it and `String::from_utf8` checks it. */
module Utf8 {
  import opened Prelude

  predicate Ascii(c: char) { c as int < 0x80 }

  function EncodeChar(c: char): (b: seq<Byte>)
    ensures 1 <= |b| <= 4
    ensures Ascii(c) ==> b == [c as int]
    ensures !Ascii(c) ==> |b| > 1 && (forall i :: 0 <= i < |b| ==> b[i] >= 0x80) && (forall i :: 0 < i < |b| ==> b[i] < 0xC0)
  {
    var v := c as int;
    if v < 0x80 then [v]
    else if v < 0x800 then [0xC0 + v / 0x40, 0x80 + v % 0x40]
    else if v < 0x10000 then [0xE0 + v / 0x40 / 0x40, 0x80 + v / 0x40 % 0x40, 0x80 + v % 0x40]
    else [0xF0 + v / 0x40 / 0x40 / 0x40, 0x80 + v / 0x40 / 0x40 % 0x40, 0x80 + v / 0x40 % 0x40, 0x80 + v % 0x40]
  }

  function Encode(s: string): seq<Byte>
  {
    if s == "" then [] else EncodeChar(s[0]) + Encode(s[1..])
  }

  predicate Continuation(b: Byte) { 0x80 <= b < 0xC0 }

  predicate IsScalar(v: int) { 0 <= v < 0xD800 || 0xE000 <= v < 0x110000 }

  /** Six more bits from a continuation byte. */
  function Join(high: int, b: Byte): int { high * 0x40 + (b - 0x80) }

  datatype Decoded = Decoded(c: char, width: nat)

  /** The first character: shortest form only, scalar values only. */
  function DecodeFirst(b: seq<Byte>): (r: Option<Decoded>)
    requires b != []
    ensures r.Some? ==> 1 <= r.value.width <= |b|
  {
    var b0: int := b[0];
    if b0 < 0x80 then Some(Decoded(b0 as char, 1))
    else if 0xC2 <= b0 < 0xE0 && |b| >= 2 && Continuation(b[1]) then
      Some(Decoded(Join(b0 - 0xC0, b[1]) as char, 2))
    else if 0xE0 <= b0 < 0xF0 && |b| >= 3 && Continuation(b[1]) && Continuation(b[2]) then
      var v := Join(Join(b0 - 0xE0, b[1]), b[2]);
      if v >= 0x800 && IsScalar(v) then Some(Decoded(v as char, 3)) else None
    else if 0xF0 <= b0 < 0xF5 && |b| >= 4 && Continuation(b[1]) && Continuation(b[2]) && Continuation(b[3]) then
      var v := Join(Join(Join(b0 - 0xF0, b[1]), b[2]), b[3]);
      if v >= 0x10000 && IsScalar(v) then Some(Decoded(v as char, 4)) else None
    else None
  }

  /** `String::from_utf8`. */
  function Decode(b: seq<Byte>): Option<string>
    decreases |b|
  {
    if b == [] then Some("")
    else match DecodeFirst(b)
      case None => None
      case Some(Decoded(c, width)) =>
        match Decode(b[width..])
        case None => None
        case Some(s) => Some([c] + s)
  }

  lemma JoinSplit(v: nat)
    ensures Continuation(0x80 + v % 0x40) && Join(v / 0x40, 0x80 + v % 0x40) == v
  {
  }

  lemma DecodeEncodedFirst(c: char, rest: seq<Byte>)
    ensures DecodeFirst(EncodeChar(c) + rest) == Some(Decoded(c, |EncodeChar(c)|))
  {
    var v := c as int;
    JoinSplit(v);
    JoinSplit(v / 0x40);
    JoinSplit(v / 0x40 / 0x40);
    hide Join, Continuation;
    if v < 0x80 {
    } else if v < 0x800 {
    } else if v < 0x10000 {
    } else {
    }
  }

  /** An encoded character in front changes nothing about what follows. */
  lemma DecodeAfterChar(c: char, rest: seq<Byte>)
    ensures Decode(EncodeChar(c) + rest) == (match Decode(rest) case None => None case Some(s) => Some([c] + s))
  {
    DecodeEncodedFirst(c, rest);
    hide EncodeChar, DecodeFirst;
    assert (EncodeChar(c) + rest)[|EncodeChar(c)|..] == rest;
  }

  lemma {:induction false} RoundTrip(s: string)
    ensures Decode(Encode(s)) == Some(s)
  {
    hide EncodeChar, DecodeFirst;
    if s != "" {
      DecodeAfterChar(s[0], Encode(s[1..]));
      RoundTrip(s[1..]);
      assert s == [s[0]] + s[1..];
    }
  }

  /** What an encoded character looks like: its length by range, and the bits of its value. */
  lemma EncodedShape(c: char, b: seq<int>)
    requires b == EncodeChar(c)
    ensures |b| == (if c as int < 0x80 then 1 else if c as int < 0x800 then 2 else if c as int < 0x1_0000 then 3 else 4)
    ensures |b| == 2 ==> 0xc0 <= b[0] < 0xe0 && c as int == (b[0] - 0xc0) * 0x40 + (b[1] - 0x80)
    ensures |b| == 3 ==> 0xe0 <= b[0] < 0xf0 && c as int == (b[0] - 0xe0) * 0x1000 + (b[1] - 0x80) * 0x40 + (b[2] - 0x80)
    ensures |b| == 4 ==> 0xf0 <= b[0] < 0xf8
    ensures |b| == 4 ==> c as int == (b[0] - 0xf0) * 0x4_0000 + (b[1] - 0x80) * 0x1000 + (b[2] - 0x80) * 0x40 + (b[3] - 0x80)
    ensures forall i :: 0 < i < |b| ==> 0x80 <= b[i] < 0xc0
  {
    var v := c as int;
    SixBits(v);
    SixBits(v / 0x40);
    SixBits(v / 0x40 / 0x40);
    if v < 0x80 {
    } else if v < 0x800 {
    } else if v < 0x10000 {
    } else {
    }
  }

  lemma SixBits(v: nat)
    ensures v == v / 0x40 * 0x40 + v % 0x40 && v % 0x40 < 0x40
  {
  }

  lemma JoinBack(high: nat, b: Byte)
    requires Continuation(b)
    ensures Join(high, b) >= 0 && Join(high, b) / 0x40 == high && 0x80 + Join(high, b) % 0x40 == b
  {
  }

  /** Nothing but the encoding of a character is read as that character. */
  lemma FirstIsEncoded(b: seq<Byte>)
    requires b != [] && DecodeFirst(b).Some?
    ensures var d := DecodeFirst(b).value; EncodeChar(d.c) == b[..d.width]
  {
    var b0: int := b[0];
    if b0 < 0x80 {
    } else if b0 < 0xE0 {
      JoinBack(b0 - 0xC0, b[1]);
      hide Join, Continuation;
    } else if b0 < 0xF0 {
      JoinBack(b0 - 0xE0, b[1]);
      JoinBack(Join(b0 - 0xE0, b[1]), b[2]);
      hide Join, Continuation;
    } else {
      JoinBack(b0 - 0xF0, b[1]);
      JoinBack(Join(b0 - 0xF0, b[1]), b[2]);
      JoinBack(Join(Join(b0 - 0xF0, b[1]), b[2]), b[3]);
      hide Join, Continuation;
    }
  }

  /** Decoding succeeds on encodings and on nothing else. */
  lemma {:induction false} DecodeIff(b: seq<Byte>, s: string)
    ensures Decode(b) == Some(s) <==> b == Encode(s)
    decreases |b|
  {
    hide EncodeChar, DecodeFirst;
    if b == Encode(s) {
      RoundTrip(s);
    }
    if b != [] && Decode(b) == Some(s) {
      FirstIsEncoded(b);
      var d := DecodeFirst(b).value;
      DecodeIff(b[d.width..], s[1..]);
      assert s == [d.c] + s[1..];
      assert b == b[..d.width] + b[d.width..];
    }
  }

  /** No character starts with a continuation byte. */
  lemma StrayContinuation(b: seq<Byte>)
    requires b != [] && Continuation(b[0])
    ensures Decode(b) == None
  {
  }
}
