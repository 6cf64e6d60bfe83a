/** Stripping terminal escape sequences (src/sources/mod.rs:7-67). The code works on
    the bytes of a UTF-8 string; the reference works on its characters. */
module Ansi {
  import opened Prelude
  import opened Utf8

  const ESC: Byte := 0x1b
  const OCTAL_ESC: seq<Byte> := [0x23, 0x30, 0x33, 0x33]  // "#033"

  predicate IsAlpha(b: Byte) { 0x41 <= b <= 0x5a || 0x61 <= b <= 0x7a }

  predicate OctalAt(b: seq<Byte>) { |b| >= 4 && b[..4] == OCTAL_ESC }

  // ---- on bytes --------------------------------------------------------------------------

  function SkipCsi(b: seq<Byte>): (r: seq<Byte>)
    ensures |r| <= |b|
  {
    if b == [] then [] else if IsAlpha(b[0]) then b[1..] else SkipCsi(b[1..])
  }

  /** What is left after `skip_after_esc`. */
  function SkipEsc(b: seq<Byte>): (r: seq<Byte>)
    ensures |r| <= |b|
  {
    if b == [] then [] else if b[0] == 0x5b then SkipCsi(b[1..]) else b[1..]
  }

  function StripBytes(b: seq<Byte>): (r: seq<Byte>)
    ensures |r| <= |b| && ESC !in r
    decreases |b|
  {
    if b == [] then []
    else if b[0] == ESC then StripBytes(SkipEsc(b[1..]))
    else if OctalAt(b) then StripBytes(SkipEsc(b[4..]))
    else [b[0]] + StripBytes(b[1..])
  }

  // ---- on characters ---------------------------------------------------------------------

  predicate IsLetter(c: char) { 'A' <= c <= 'Z' || 'a' <= c <= 'z' }

  predicate StartsOctal(s: string) { |s| >= 4 && s[..4] == "#033" }

  function SkipCsiChars(s: string): (r: string)
    ensures |r| <= |s|
  {
    if s == "" then "" else if IsLetter(s[0]) then s[1..] else SkipCsiChars(s[1..])
  }

  function SkipEscChars(s: string): (r: string)
    ensures |r| <= |s|
  {
    if s == "" then "" else if s[0] == '[' then SkipCsiChars(s[1..]) else s[1..]
  }

  /** The reference: the same scanner, reading characters. */
  function StripChars(s: string): (r: string)
    ensures |r| <= |s| && '\U{1b}' !in r
    decreases |s|
  {
    if s == "" then ""
    else if s[0] == '\U{1b}' then StripChars(SkipEscChars(s[1..]))
    else if StartsOctal(s) then StripChars(SkipEscChars(s[4..]))
    else [s[0]] + StripChars(s[1..])
  }

  /** What the scanner finds right after an introducer is ASCII, or the end. */
  predicate AsciiNext(s: string) { s == "" || Ascii(s[0]) }

  /** No introducer the scanner acts on is directly followed by a non-ASCII character. */
  predicate Clean(s: string)
    decreases |s|
  {
    if s == "" then true
    else if s[0] == '\U{1b}' then AsciiNext(s[1..]) && Clean(SkipEscChars(s[1..]))
    else if StartsOctal(s) then AsciiNext(s[4..]) && Clean(SkipEscChars(s[4..]))
    else Clean(s[1..])
  }

  // ---- the function the daemon calls ---------------------------------------------------------

  predicate HasIntroducer(s: string)
  {
    '\U{1b}' in s || exists i :: 0 <= i <= |s| && StartsOctal(s[i..])
  }

  /** `strip_ansi`: the fast path, the byte loop, and `from_utf8(..).unwrap_or_default()`. */
  function StripAnsi(s: string): string
  {
    if !HasIntroducer(s) then s
    else match Decode(StripBytes(Encode(s)))
      case None => ""
      case Some(r) => r
  }

  // ---- bytes and characters agree ------------------------------------------------------------

  lemma EncodeStep(s: string)
    requires s != ""
    ensures Encode(s) == EncodeChar(s[0]) + Encode(s[1..]) && Encode(s) != []
    ensures Encode(s)[0] == EncodeChar(s[0])[0]
    ensures Ascii(s[0]) ==> Encode(s)[0] == s[0] as int && Encode(s)[1..] == Encode(s[1..])
    ensures !Ascii(s[0]) ==> Encode(s)[0] >= 0x80
  {
  }

  /** One ASCII character is one byte, recognised in either view. */
  lemma HeadAgrees(s: string, c: char)
    requires Ascii(c)
    ensures (s != "" && s[0] == c) <==> (Encode(s) != [] && Encode(s)[0] == c as int)
    ensures s != "" && s[0] == c ==> Encode(s)[1..] == Encode(s[1..])
  {
    if s != "" {
      EncodeStep(s);
    }
  }

  lemma OctalAgrees(s: string)
    ensures OctalAt(Encode(s)) <==> StartsOctal(s)
    ensures StartsOctal(s) ==> Encode(s)[4..] == Encode(s[4..])
  {
    HeadAgrees(s, '#');
    if s != "" && s[0] == '#' {
      HeadAgrees(s[1..], '0');
      if s[1..] != "" && s[1..][0] == '0' {
        HeadAgrees(s[1..][1..], '3');
        if s[1..][1..] != "" && s[1..][1..][0] == '3' {
          HeadAgrees(s[1..][1..][1..], '3');
        }
      }
    }
    hide Encode, EncodeChar;
    OctalBytes(Encode(s));
    OctalChars(s);
  }

  lemma OctalBytes(b: seq<Byte>)
    ensures OctalAt(b) <==> |b| >= 4 && b[0] == 0x23 && b[1..][0] == 0x30 && b[1..][1..][0] == 0x33 && b[1..][1..][1..][0] == 0x33
    ensures |b| >= 4 ==> b[4..] == b[1..][1..][1..][1..]
  {
  }

  lemma OctalChars(s: string)
    ensures StartsOctal(s) <==> |s| >= 4 && s[0] == '#' && s[1..][0] == '0' && s[1..][1..][0] == '3' && s[1..][1..][1..][0] == '3'
    ensures |s| >= 4 ==> s[4..] == s[1..][1..][1..][1..]
  {
  }

  lemma HighBytePasses(b: Byte, rest: seq<Byte>)
    requires b >= 0x80
    ensures StripBytes([b] + rest) == [b] + StripBytes(rest) && SkipCsi([b] + rest) == SkipCsi(rest)
  {
    var all := [b] + rest;
    assert all[1..] == rest && all[0] == b;
    assert !OctalAt(all) by {
      assert |all| >= 4 ==> all[..4][0] == b;
    }
  }

  /** Non-ASCII bytes pass through the byte scanner. */
  lemma {:induction false} HighBytesPass(high: seq<Byte>, rest: seq<Byte>)
    requires forall i :: 0 <= i < |high| ==> high[i] >= 0x80
    ensures StripBytes(high + rest) == high + StripBytes(rest)
    ensures SkipCsi(high + rest) == SkipCsi(rest)
  {
    hide StripBytes, SkipCsi;
    if high == [] {
      assert high + rest == rest;
      assert [] + StripBytes(rest) == StripBytes(rest);
    } else {
      assert high + rest == [high[0]] + (high[1..] + rest);
      HighBytePasses(high[0], high[1..] + rest);
      HighBytesPass(high[1..], rest);
      assert high + StripBytes(rest) == [high[0]] + (high[1..] + StripBytes(rest));
    }
  }

  lemma {:induction false} SkipCsiAgrees(s: string)
    ensures SkipCsi(Encode(s)) == Encode(SkipCsiChars(s))
  {
    if s != "" {
      EncodeStep(s);
      SkipCsiAgrees(s[1..]);
      if !Ascii(s[0]) {
        HighBytesPass(EncodeChar(s[0]), Encode(s[1..]));
      }
    }
  }

  lemma SkipEscAgrees(s: string)
    requires AsciiNext(s)
    ensures SkipEsc(Encode(s)) == Encode(SkipEscChars(s))
  {
    if s != "" {
      EncodeStep(s);
      SkipCsiAgrees(s[1..]);
    }
  }

  /** A character the scanner does not act on is copied whole. */
  lemma PlainCharPasses(s: string)
    requires s != "" && s[0] != '\U{1b}' && !StartsOctal(s)
    ensures StripBytes(Encode(s)) == EncodeChar(s[0]) + StripBytes(Encode(s[1..]))
  {
    EncodeStep(s);
    OctalAgrees(s);
    hide Encode, StartsOctal;
    if !Ascii(s[0]) {
      HighBytesPass(EncodeChar(s[0]), Encode(s[1..]));
    }
  }

  /** The scanner meets an introducer: both views skip the same number of bytes. */
  lemma IntroducerAgrees(s: string) returns (after: string)
    requires s != "" && (s[0] == '\U{1b}' || StartsOctal(s))
    ensures |after| < |s| && after == (if s[0] == '\U{1b}' then s[1..] else s[4..])
    ensures StripBytes(Encode(s)) == StripBytes(SkipEsc(Encode(after)))
    ensures StripChars(s) == StripChars(SkipEscChars(after))
    ensures Clean(s) <==> AsciiNext(after) && Clean(SkipEscChars(after))
  {
    EncodeStep(s);
    OctalAgrees(s);
    after := if s[0] == '\U{1b}' then s[1..] else s[4..];
  }

  /** On clean input the byte loop computes the encoding of the reference result. */
  lemma {:induction false} CleanAgrees(s: string)
    requires Clean(s)
    ensures StripBytes(Encode(s)) == Encode(StripChars(s))
    decreases |s|
  {
    if s == "" {
    } else if s[0] == '\U{1b}' || StartsOctal(s) {
      var after := IntroducerAgrees(s);
      SkipEscAgrees(after);
      CleanAgrees(SkipEscChars(after));
    } else {
      PlainCharPasses(s);
      CleanAgrees(s[1..]);
      EncodeStep([s[0]] + StripChars(s[1..]));
      assert ([s[0]] + StripChars(s[1..]))[1..] == StripChars(s[1..]);
    }
  }

  /** On any other input it leaves a stray continuation byte, so the bytes are not a
      string at all. */
  lemma {:induction false} UncleanIsInvalid(s: string)
    requires !Clean(s)
    ensures Decode(StripBytes(Encode(s))) == None
    decreases |s|
  {
    hide Encode, EncodeChar, StripBytes, StripChars, StartsOctal, Decode, SkipEsc, SkipEscChars;
    if s[0] == '\U{1b}' || StartsOctal(s) {
      var after := IntroducerAgrees(s);
      if AsciiNext(after) {
        SkipEscAgrees(after);
        UncleanIsInvalid(SkipEscChars(after));
      } else {
        Stray(after);
      }
    } else {
      PlainCharPasses(s);
      UncleanIsInvalid(s[1..]);
      DecodeAfterChar(s[0], StripBytes(Encode(s[1..])));
    }
  }

  lemma Stray(s: string)
    requires !AsciiNext(s)
    ensures Decode(StripBytes(SkipEsc(Encode(s)))) == None
  {
    EncodeStep(s);
    var tail := EncodeChar(s[0])[1..];
    var rest := Encode(s[1..]);
    assert SkipEsc(Encode(s)) == tail + rest;
    HighBytesPass(tail, rest);
    StrayContinuation(tail + StripBytes(rest));
  }

  // ---- the theorems --------------------------------------------------------------------------

  lemma {:induction false} NoIntroducerUnchanged(s: string)
    requires !HasIntroducer(s)
    ensures StripChars(s) == s && Clean(s)
  {
    if s != "" {
      assert s[0..] == s && !StartsOctal(s);
      assert forall i :: 0 <= i <= |s[1..]| ==> s[1..][i..] == s[i + 1..];
      NoIntroducerUnchanged(s[1..]);
      assert s == [s[0]] + s[1..];
    }
  }

  /** For every string: the result is the reference result when no introducer is
      directly followed by a non-ASCII character, and the empty string otherwise.
      The fast path never changes the answer. */
  lemma StripAnsiExact(s: string)
    ensures StripAnsi(s) == if Clean(s) then StripChars(s) else ""
    ensures Decode(StripBytes(Encode(s))).Some? <==> Clean(s)
    ensures '\U{1b}' !in StripAnsi(s) && |StripAnsi(s)| <= |s|
    ensures !HasIntroducer(s) ==> StripBytes(Encode(s)) == Encode(s)
  {
    hide Encode, StripBytes, Decode, HasIntroducer;
    if Clean(s) {
      CleanAgrees(s);
      RoundTrip(StripChars(s));
    } else {
      UncleanIsInvalid(s);
    }
    if !HasIntroducer(s) {
      NoIntroducerUnchanged(s);
    }
  }

  /** A condition on the text alone: nothing non-ASCII directly after an introducer. */
  ghost predicate NothingAwkward(s: string)
  {
    && (forall i :: 0 <= i < |s| && s[i] == '\U{1b}' ==> AsciiNext(s[i + 1..]))
    && (forall i :: 0 <= i <= |s| - 4 && StartsOctal(s[i..]) ==> AsciiNext(s[i + 4..]))
  }

  lemma AwkwardSuffix(s: string, k: nat)
    requires NothingAwkward(s) && k <= |s|
    ensures NothingAwkward(s[k..])
  {
    forall i | 0 <= i < |s| - k && s[k..][i] == '\U{1b}' ensures AsciiNext(s[k..][i + 1..]) {
      assert s[k..][i + 1..] == s[k + i + 1..];
    }
    forall i | 0 <= i <= |s| - k - 4 && StartsOctal(s[k..][i..]) ensures AsciiNext(s[k..][i + 4..]) {
      assert s[k..][i..] == s[k + i..] && s[k..][i + 4..] == s[k + i + 4..];
    }
  }

  lemma {:induction false} SkipIsSuffix(s: string) returns (k: nat, m: nat)
    ensures k <= |s| && SkipCsiChars(s) == s[k..]
    ensures m <= |s| && SkipEscChars(s) == s[m..]
  {
    if s == "" {
      k, m := 0, 0;
    } else {
      var k', m' := SkipIsSuffix(s[1..]);
      k := if IsLetter(s[0]) then 1 else k' + 1;
      m := if s[0] == '[' then k' + 1 else 1;
      assert s[1..][k'..] == s[k' + 1..];
    }
  }

  lemma {:induction false} NothingAwkwardIsClean(s: string)
    requires NothingAwkward(s)
    ensures Clean(s)
    decreases |s|
  {
    if s != "" {
      assert s[0..] == s;
      var n := if s[0] == '\U{1b}' then 1 else if StartsOctal(s) then 4 else 0;
      if n == 0 {
        AwkwardSuffix(s, 1);
        NothingAwkwardIsClean(s[1..]);
      } else {
        var k, m := SkipIsSuffix(s[n..]);
        assert s[n..][m..] == s[n + m..];
        AwkwardSuffix(s, n + m);
        NothingAwkwardIsClean(SkipEscChars(s[n..]));
      }
    }
  }

  /** With nothing awkward in the text, stripping is the character-level stripper. */
  lemma StripAnsiRefines(s: string)
    requires NothingAwkward(s)
    ensures StripAnsi(s) == StripChars(s)
  {
    NothingAwkwardIsClean(s);
    StripAnsiExact(s);
  }

  // ---- what the scanner reads ------------------------------------------------------------------

  /** A string as the scanner cuts it up: kept characters, and sequences that go away. */
  datatype Piece = Kept(c: char) | Escape(introducer: string, body: string)

  function Print(ps: seq<Piece>): string
  {
    if ps == [] then ""
    else
      match ps[0]
      case Kept(c) => [c] + Print(ps[1..])
      case Escape(introducer, body) => introducer + (body + Print(ps[1..]))
  }

  function KeptText(ps: seq<Piece>): string
  {
    if ps == [] then "" else (if ps[0].Kept? then [ps[0].c] else "") + KeptText(ps[1..])
  }

  predicate NoLetters(params: string)
  {
    forall i :: 0 <= i < |params| ==> !('A' <= params[i] <= 'Z' || 'a' <= params[i] <= 'z')
  }

  /** One character that is not a bracket, or "[", no letters, and one letter. */
  ghost predicate WholeBody(body: string)
  {
    || (|body| == 1 && body[0] != '[')
    || (|body| >= 2 && body[0] == '[' && NoLetters(body[1..|body| - 1])
        && !NoLetters(body[|body| - 1..]))
  }

  /** What the end of the text may cut off. */
  ghost predicate CutBody(body: string) { body == "" || (body[0] == '[' && NoLetters(body[1..])) }

  /** Sequences start with ESC or "#033", and no kept character starts one. */
  ghost predicate Lawful(ps: seq<Piece>)
  {
    ps != [] ==>
      && Lawful(ps[1..])
      && match ps[0]
         case Kept(c) => c != '\U{1b}' && !("#033" <= Print(ps))
         case Escape(introducer, body) =>
           && (introducer == "\U{1b}" || introducer == "#033")
           && (WholeBody(body) || (CutBody(body) && ps[1..] == []))
  }

  /** Every sequence goes on with an ASCII character, or is cut off right after its start. */
  ghost predicate AsciiBodies(ps: seq<Piece>)
  {
    forall i :: 0 <= i < |ps| && ps[i].Escape? && ps[i].body != "" ==> ps[i].body[0] as int < 0x80
  }

  lemma {:induction false} ParamsSkipped(params: string, rest: string)
    requires NoLetters(params)
    ensures SkipCsiChars(params + rest) == SkipCsiChars(rest)
  {
    if params == "" {
      assert params + rest == rest;
    } else {
      assert (params + rest)[1..] == params[1..] + rest;
      ParamsSkipped(params[1..], rest);
    }
  }

  lemma BodySkipped(body: string, rest: string)
    requires WholeBody(body) || (CutBody(body) && rest == "")
    ensures SkipEscChars(body + rest) == rest
    ensures AsciiNext(body + rest) <==> body == "" || body[0] as int < 0x80
  {
    var s := body + rest;
    if body == "" {
      assert s == "";
    } else if body[0] != '[' {
      assert s[1..] == rest && s[0] == body[0];
    } else if WholeBody(body) {
      var params, last := body[1..|body| - 1], body[|body| - 1];
      assert s[1..] == params + ([last] + rest);
      assert body[|body| - 1..] == [last];
      ParamsSkipped(params, [last] + rest);
      assert ([last] + rest)[1..] == rest;
    } else {
      assert s[1..] == body[1..] + "";
      ParamsSkipped(body[1..], "");
    }
  }

  lemma {:induction false} PiecesStripped(ps: seq<Piece>)
    requires Lawful(ps)
    ensures StripChars(Print(ps)) == KeptText(ps)
    ensures Clean(Print(ps)) <==> AsciiBodies(ps)
    decreases |ps|
  {
    if ps != [] {
      var s, rest := Print(ps), Print(ps[1..]);
      PiecesStripped(ps[1..]);
      AsciiHead(ps);
      match ps[0]
      case Kept(c) =>
        assert s[1..] == rest && s[0] == c;
        assert StartsOctal(s) ==> "#033" <= s;
      case Escape(introducer, body) =>
        BodySkipped(body, rest);
        IntroducerCut(introducer, body + rest);
    }
  }

  lemma AsciiHead(ps: seq<Piece>)
    requires ps != []
    ensures AsciiBodies(ps) <==> AsciiBodies(ps[1..]) && (ps[0].Escape? && ps[0].body != "" ==> ps[0].body[0] as int < 0x80)
  {
    assert forall i :: 0 < i < |ps| ==> ps[i] == ps[1..][i - 1];
  }

  lemma IntroducerCut(introducer: string, after: string)
    requires introducer == "\U{1b}" || introducer == "#033"
    ensures var s := introducer + after;
      && StripChars(s) == StripChars(SkipEscChars(after))
      && (Clean(s) <==> AsciiNext(after) && Clean(SkipEscChars(after)))
  {
    var s := introducer + after;
    if introducer == "#033" {
      assert s[0] == '#' && s[..4] == "#033" && s[4..] == after;
    } else {
      assert s[0] == '\U{1b}' && s[1..] == after;
    }
  }

  /** A skipped control sequence: no letters, then one letter or the end. */
  lemma {:induction false} SkippedParams(s: string) returns (params: string, last: string)
    ensures s == params + (last + SkipCsiChars(s)) && NoLetters(params)
    ensures (|last| == 1 && !NoLetters(last)) || (last == "" && SkipCsiChars(s) == "")
  {
    if s == "" {
      params, last := "", "";
    } else if IsLetter(s[0]) {
      params, last := "", s[..1];
      assert last[0] == s[0];
    } else {
      params, last := SkippedParams(s[1..]);
      params := [s[0]] + params;
    }
  }

  lemma SkippedBody(s: string) returns (body: string)
    ensures s == body + SkipEscChars(s)
    ensures WholeBody(body) || (CutBody(body) && SkipEscChars(s) == "")
  {
    if s == "" {
      body := "";
    } else if s[0] != '[' {
      body := s[..1];
    } else {
      var params, last := SkippedParams(s[1..]);
      body := "[" + (params + last);
      assert body[1..] == params + last;
      if last != "" {
        assert body[1..|body| - 1] == params && body[|body| - 1..] == last;
      } else {
        assert params + last == params;
      }
    }
  }

  /** Every string is cut up lawfully. */
  lemma {:induction false} CutUp(s: string) returns (ps: seq<Piece>)
    ensures Print(ps) == s && Lawful(ps)
    decreases |s|
  {
    if s == "" {
      ps := [];
    } else if s[0] == '\U{1b}' || "#033" <= s {
      var introducer := if s[0] == '\U{1b}' then "\U{1b}" else "#033";
      var after := s[|introducer|..];
      var body := SkippedBody(after);
      var rest := CutUp(SkipEscChars(after));
      ps := [Escape(introducer, body)] + rest;
      assert s == introducer + after;
      hide SkipEscChars, Lawful, Print, WholeBody, CutBody;
      EscapeInFront(introducer, body, rest);
    } else {
      var rest := CutUp(s[1..]);
      ps := [Kept(s[0])] + rest;
      assert s == [s[0]] + s[1..];
      hide Lawful, Print;
      KeptInFront(s[0], rest);
    }
  }

  lemma EscapeInFront(introducer: string, body: string, rest: seq<Piece>)
    requires Lawful(rest) && (introducer == "\U{1b}" || introducer == "#033")
    requires WholeBody(body) || (CutBody(body) && Print(rest) == "")
    ensures var ps := [Escape(introducer, body)] + rest; Lawful(ps) && Print(ps) == introducer + (body + Print(rest))
  {
    NothingPrinted(rest);
    assert ([Escape(introducer, body)] + rest)[1..] == rest;
  }

  lemma KeptInFront(c: char, rest: seq<Piece>)
    requires Lawful(rest) && c != '\U{1b}' && !("#033" <= [c] + Print(rest))
    ensures var ps := [Kept(c)] + rest; Lawful(ps) && Print(ps) == [c] + Print(rest)
  {
    assert ([Kept(c)] + rest)[1..] == rest;
  }

  lemma NothingPrinted(ps: seq<Piece>)
    requires Lawful(ps)
    ensures Print(ps) == "" <==> ps == []
  {
  }

  /** For every string and every lawful way to cut it up, of which there is one at least: what
      remains is the kept characters in order, or nothing at all when a sequence goes on with
      a non-ASCII character. */
  lemma StripAnsiKeepsText(s: string) returns (ps: seq<Piece>)
    ensures Print(ps) == s && Lawful(ps)
    ensures forall qs :: Print(qs) == s && Lawful(qs) ==> StripAnsi(s) == if AsciiBodies(qs) then KeptText(qs) else ""
  {
    ps := CutUp(s);
    StripAnsiExact(s);
    forall qs | Print(qs) == s && Lawful(qs) ensures StripAnsi(s) == if AsciiBodies(qs) then KeptText(qs) else "" {
      PiecesStripped(qs);
    }
  }

  // ---- doing it twice ------------------------------------------------------------------------

  lemma {:induction false} IntroducersShorten(s: string)
    requires HasIntroducer(s)
    ensures |StripChars(s)| < |s|
  {
    if s[0] == '\U{1b}' || StartsOctal(s) {
    } else {
      if '\U{1b}' !in s {
        var i :| 0 <= i <= |s| && StartsOctal(s[i..]);
        assert s[0..] == s;
        assert s[1..][i - 1..] == s[i..];
      }
      IntroducersShorten(s[1..]);
    }
  }

  const OCTAL: string := "#033"

  /** How much of "#033" is matched after c, when p characters of it were before. */
  function Progress(p: nat, c: char): (q: nat)
    requires p < 4
    ensures q <= 4
  {
    if c == OCTAL[p] then p + 1 else if c == '#' then 1 else 0
  }

  /** Read on the input: the characters that stripping keeps spell out an octal
      introducer, of which p characters are already there. */
  predicate Reassembles(s: string, p: nat)
    requires p < 4
    decreases |s|
  {
    if s == "" then false
    else if s[0] == '\U{1b}' then Reassembles(SkipEscChars(s[1..]), p)
    else if StartsOctal(s) then Reassembles(SkipEscChars(s[4..]), p)
    else Progress(p, s[0]) == 4 || Reassembles(s[1..], Progress(p, s[0]))
  }

  /** The same automaton on text that is kept whole. */
  predicate Spells(r: string, p: nat)
    requires p < 4
  {
    r != "" && (Progress(p, r[0]) == 4 || Spells(r[1..], Progress(p, r[0])))
  }

  lemma {:induction false} ReassemblesIsSpells(s: string, p: nat)
    requires p < 4
    ensures Reassembles(s, p) <==> Spells(StripChars(s), p)
    decreases |s|
  {
    hide Progress, SkipEscChars;
    if s == "" {
    } else if s[0] == '\U{1b}' {
      ReassemblesIsSpells(SkipEscChars(s[1..]), p);
    } else if StartsOctal(s) {
      ReassemblesIsSpells(SkipEscChars(s[4..]), p);
    } else {
      var r := [s[0]] + StripChars(s[1..]);
      assert r[0] == s[0] && r[1..] == StripChars(s[1..]);
      if Progress(p, s[0]) < 4 {
        ReassemblesIsSpells(s[1..], Progress(p, s[0]));
      }
    }
  }

  ghost predicate HasOctal(s: string) { exists i :: 0 <= i <= |s| && StartsOctal(s[i..]) }

  lemma OctalHead(s: string)
    ensures StartsOctal(s) <==> |s| >= 4 && s[0] == '#' && s[1] == '0' && s[2] == '3' && s[3] == '3'
  {
  }

  lemma OctalFromHead(c: char, s: string)
    ensures HasOctal([c] + s) <==> StartsOctal([c] + s) || HasOctal(s)
  {
    hide StartsOctal;
    var t := [c] + s;
    assert t[0..] == t && forall i :: 0 < i <= |t| ==> t[i..] == s[i - 1..];
    if HasOctal(s) {
      var i :| 0 <= i <= |s| && StartsOctal(s[i..]);
      assert t[i + 1..] == s[i..];
    }
    if HasOctal(t) {
      var i :| 0 <= i <= |t| && StartsOctal(t[i..]);
      assert i > 0 ==> t[i..] == s[i - 1..];
    }
  }

  lemma Unmatched(p: nat, c: char, s: string, i: nat)
    requires i < p < 4 && c != OCTAL[p]
    ensures !StartsOctal(OCTAL[i..p] + ([c] + s))
  {
    var t := OCTAL[i..p] + ([c] + s);
    OctalHead(t);
    assert t[p - i] == c && t[0] == OCTAL[i];
  }

  /** A matched prefix that the next character does not continue leads nowhere, except that
      the character may begin a new one. */
  lemma {:induction false} OctalTail(p: nat, c: char, s: string, i: nat)
    requires i <= p < 4 && c != OCTAL[p]
    ensures HasOctal(OCTAL[i..p] + ([c] + s)) <==> HasOctal([c] + s)
    decreases p - i
  {
    if i == p {
      assert OCTAL[i..p] + ([c] + s) == [c] + s;
    } else {
      Unmatched(p, c, s, i);
      OctalTail(p, c, s, i + 1);
      OctalFromHead(OCTAL[i], OCTAL[i + 1..p] + ([c] + s));
      assert [OCTAL[i]] + (OCTAL[i + 1..p] + ([c] + s)) == OCTAL[i..p] + ([c] + s);
    }
  }

  lemma {:induction false} SpellsIsHasOctal(r: string, p: nat)
    requires p < 4
    ensures Spells(r, p) <==> HasOctal(OCTAL[..p] + r)
    decreases |r|
  {
    hide StartsOctal, HasOctal;
    if r == "" {
      ShortHasNone(OCTAL[..p] + r);
    } else {
      var c, rest := r[0], r[1..];
      assert r == [c] + rest;
      if c == OCTAL[p] {
        assert OCTAL[..p] + r == OCTAL[..p + 1] + rest;
        if p == 3 {
          WholeOctal(rest);
        } else {
          SpellsIsHasOctal(rest, p + 1);
        }
      } else {
        OctalTail(p, c, rest, 0);
        assert OCTAL[0..p] == OCTAL[..p];
        SpellsIsHasOctal(rest, Progress(p, c));
        if c == '#' {
          assert OCTAL[..1] + rest == [c] + rest;
        } else {
          OctalFromHead(c, rest);
          OctalHead([c] + rest);
          assert OCTAL[..0] + rest == rest;
        }
      }
    }
  }

  lemma ShortHasNone(s: string)
    requires |s| < 4
    ensures !HasOctal(s)
  {
  }

  lemma WholeOctal(rest: string)
    ensures HasOctal(OCTAL[..4] + rest)
  {
    var t := OCTAL[..4] + rest;
    assert t[0..] == t && t[..4] == OCTAL;
  }

  /** Stripping a second time changes the result exactly when nothing awkward emptied it and
      the characters kept from the input spell out an octal introducer again. */
  lemma IdempotentIff(s: string)
    ensures StripAnsi(StripAnsi(s)) == StripAnsi(s) <==> !(Clean(s) && Reassembles(s, 0))
  {
    var r := StripAnsi(s);
    StripAnsiExact(s);
    StripAnsiExact(r);
    if Clean(s) {
      ReassemblesIsSpells(s, 0);
      SpellsIsHasOctal(r, 0);
      assert OCTAL[..0] + r == r;
    } else {
      ShortHasNone(r);
    }
    assert HasIntroducer(r) <==> HasOctal(r);
    hide StripAnsi, StripChars, Clean, Reassembles, Spells, HasOctal, StartsOctal;
    if HasIntroducer(r) {
      IntroducersShorten(r);
      assert r != "" by { if r == "" { ShortHasNone(r); } }
    } else {
      NoIntroducerUnchanged(r);
    }
  }

  lemma PlainText(s: string)
    requires '#' !in s && '\U{1b}' !in s
    ensures !HasIntroducer(s)
  {
    forall i | 0 <= i <= |s| ensures !StartsOctal(s[i..]) {
      assert |s[i..]| >= 4 ==> s[i..][..4][0] == s[i];
    }
  }

  lemma StripEscM(s: string, rest: string)
    requires s == "#\U{1b}M" + rest
    ensures StripChars(s) == "#" + StripChars(rest) && (Clean(s) <==> Clean(rest))
  {
    hide StripAnsi, StripBytes, HasIntroducer, SkipCsiChars;
    var t, u := s[1..], s[1..][1..];
    assert s[0] == '#' && s[1] == '\U{1b}';
    assert !StartsOctal(s) by { assert |s| >= 4 ==> s[..4][1] == '\U{1b}'; }
    assert u == "M" + rest && u[0] == 'M' && u[1..] == rest;
    assert SkipEscChars(u) == rest && AsciiNext(u);
    assert StripChars(t) == StripChars(rest) && (Clean(t) <==> Clean(rest));
  }

  /** "#", ESC, "M" followed by "033" is such an input, whatever comes after it. */
  lemma StrippingTwiceDiffers(t: string)
    requires '#' !in t && '\U{1b}' !in t
    ensures StripAnsi("#\U{1b}M" + ("033" + t)) == "#033" + t
    ensures HasIntroducer("#033" + t)
  {
    hide *;
    var rest := "033" + t;
    var s := "#\U{1b}M" + rest;
    PlainText(rest);
    NoIntroducerUnchanged(rest);
    StripEscM(s, rest);
    StripAnsiExact(s);
    OctalIsIntroducer(t);
    assert "#" + rest == "#033" + t;
  }

  lemma OctalIsIntroducer(t: string)
    ensures HasIntroducer("#033" + t)
  {
    var s := "#033" + t;
    assert s[0..] == s && s[..4] == "#033";
    assert StartsOctal(s[0..]);
  }

  // ---- the loops ---------------------------------------------------------------------------------

  /** `skip_after_esc`: the index moves past the rest of the sequence. */
  method SkipAfterEsc(b: seq<Byte>, start: nat) returns (i: nat)
    requires start <= |b|
    ensures start <= i <= |b| && b[i..] == SkipEsc(b[start..])
  {
    i := start;
    if i < |b| && b[i] == 0x5b {
      i := i + 1;
      while i < |b|
        invariant start < i <= |b|
        invariant SkipCsi(b[i..]) == SkipEsc(b[start..])
      {
        var ch := b[i];
        assert b[i..][1..] == b[i + 1..];
        i := i + 1;
        if IsAlpha(ch) {
          return;
        }
      }
    } else if i < |b| {
      i := i + 1;
    }
  }

  /** The byte loop of `strip_ansi`. */
  method StripLoop(b: seq<Byte>) returns (out: seq<Byte>)
    ensures out == StripBytes(b)
  {
    out := [];
    var i := 0;
    while i < |b|
      invariant 0 <= i <= |b| && out + StripBytes(b[i..]) == StripBytes(b)
      decreases |b| - i
    {
      LoopStep(b, i);
      if b[i] == ESC {
        i := SkipAfterEsc(b, i + 1);
        continue;
      }
      if b[i] == 0x23 && i + 4 <= |b| && b[i + 1..i + 4] == [0x30, 0x33, 0x33] {
        i := SkipAfterEsc(b, i + 4);
        continue;
      }
      out := out + [b[i]];
      i := i + 1;
    }
  }

  lemma LoopStep(b: seq<Byte>, i: nat)
    requires i < |b|
    ensures b[i] == ESC ==> StripBytes(b[i..]) == StripBytes(SkipEsc(b[i + 1..]))
    ensures OctalAt(b[i..]) <==> b[i] == 0x23 && i + 4 <= |b| && b[i + 1..i + 4] == [0x30, 0x33, 0x33]
    ensures OctalAt(b[i..]) ==> StripBytes(b[i..]) == StripBytes(SkipEsc(b[i + 4..]))
    ensures b[i] != ESC && !OctalAt(b[i..]) ==> StripBytes(b[i..]) == [b[i]] + StripBytes(b[i + 1..])
  {
    assert b[i..][1..] == b[i + 1..];
    if i + 4 <= |b| {
      assert b[i..][4..] == b[i + 4..];
      var head := b[i..][..4];
      assert head[0] == b[i] && head[1..] == b[i + 1..i + 4];
      assert OCTAL_ESC[1..] == [0x30, 0x33, 0x33];
      assert head == [head[0]] + head[1..] && OCTAL_ESC == [OCTAL_ESC[0]] + OCTAL_ESC[1..];
    }
  }

  /** `strip_ansi`. */
  method Strip(s: string) returns (r: string)
    ensures r == StripAnsi(s)
  {
    if !HasIntroducer(s) {
      return s;
    }
    var out := StripLoop(Encode(s));
    var decoded := Decode(out);
    r := if decoded.Some? then decoded.value else "";
  }
}
