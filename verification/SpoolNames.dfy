/** File names in the spool directory (src/buffer.rs:24-106): which names are
    chunks, which carry a sequence number, and how names are ordered. */
module SpoolNames {
  import opened Prelude
  import opened Decimal

  const U64: nat := 0x1_0000_0000_0000_0000

  /** Numbers below this bound fill the ten-digit field without overflowing it. */
  const NAME_LIMIT: nat := 10_000_000_000

  function LastDot(name: string): (r: Option<nat>)
    ensures r.Some? ==> r.value < |name| && name[r.value] == '.'
    ensures r.Some? ==> forall i :: r.value < i < |name| ==> name[i] != '.'
    ensures r.None? ==> '.' !in name
  {
    if name == [] then None
    else if name[|name| - 1] == '.' then Some(|name| - 1)
    else LastDot(name[..|name| - 1])
  }

  /** `Path::file_stem` and `Path::extension`: split at the last dot, except that
      a name whose only dot comes first (and "..") has no extension. */
  function SplitName(name: string): (r: (string, Option<string>))
  {
    match LastDot(name)
    case None => (name, None)
    case Some(i) =>
      if name == ".." || i == 0 then (name, None) else (name[..i], Some(name[i + 1..]))
  }

  /** `is_chunk_file`. */
  predicate IsChunkFile(name: string)
  {
    SplitName(name).1 == Some("cbor") && AllDigits(SplitName(name).0)
  }

  /** The sequence number `next_chunk_path` reads off a name. */
  function SeqNumber(name: string): Option<nat>
  {
    if SplitName(name).1 == Some("cbor") then ParseUnsigned(SplitName(name).0, U64) else None
  }

  /** `format!("{:010}.cbor", n)`. */
  function ChunkName(n: nat): string { Padded(n, 10) + ".cbor" }

  /** `path.with_extension("cbor.tmp")` of a chunk name. */
  function TmpName(n: nat): string { Padded(n, 10) + ".cbor.tmp" }

  lemma SplitAtLastDot(stem: string, ext: string)
    requires stem != [] && stem != "." && '.' !in ext
    ensures SplitName(stem + "." + ext) == (stem, Some(ext))
  {
    var name := stem + "." + ext;
    assert name[|stem|] == '.';
    assert name[|stem| + 1..] == ext;
    assert forall k :: |stem| < k < |name| ==> name[k] == ext[k - |stem| - 1];
    assert name[..|stem|] == stem;
    assert name != "..";
  }

  /** Chunk names are recognised, and their number is read back. */
  lemma ChunkNameRecognised(n: nat)
    ensures IsChunkFile(ChunkName(n))
    ensures SeqNumber(ChunkName(n)) == if n < U64 then Some(n) else None
  {
    var p := Padded(n, 10);
    assert p != "." by { assert IsDigit(p[0]); }
    assert ChunkName(n) == p + "." + "cbor";
    SplitAtLastDot(p, "cbor");
    ParsePadded(n, 10, U64);
  }

  /** A leftover temporary file is neither a chunk nor numbered. */
  lemma TmpNameIgnored(n: nat)
    ensures !IsChunkFile(TmpName(n)) && SeqNumber(TmpName(n)) == None
  {
    var p := Padded(n, 10) + ".cbor";
    assert TmpName(n) == p + "." + "tmp";
    SplitAtLastDot(p, "tmp");
  }

  /** A chunk file is named by digits and ".cbor"; its number is what the part before
      ".cbor" parses to. */
  lemma ChunkFileIff(name: string)
    ensures IsChunkFile(name)
       <==> |name| > 5 && name[|name| - 5..] == ".cbor" && forall i :: 0 <= i < |name| - 5 ==> '0' <= name[i] <= '9'
    ensures SeqNumber(name)
         == if |name| > 5 && name[|name| - 5..] == ".cbor" then ParseUnsigned(name[..|name| - 5], 0x1_0000_0000_0000_0000) else None
  {
    CborExtension(name);
    hide SplitName, ParseUnsigned;
    if |name| > 5 {
      assert forall i :: 0 <= i < |name| - 5 ==> name[..|name| - 5][i] == name[i];
    }
  }

  lemma CborExtension(name: string)
    ensures SplitName(name).1 == Some("cbor") <==> |name| > 5 && name[|name| - 5..] == ".cbor"
    ensures |name| > 5 && name[|name| - 5..] == ".cbor" ==> SplitName(name).0 == name[..|name| - 5]
  {
    if |name| > 5 && name[|name| - 5..] == ".cbor" {
      var stem := name[..|name| - 5];
      assert name == stem + ".cbor" == stem + "." + "cbor";
      assert name[|name| - 5] == '.' && forall k :: 0 <= k < 5 ==> name[|name| - 5 + k] == ".cbor"[k];
      var i := LastDot(name).value;
      assert i == |name| - 5;
      assert name[i + 1..] == "cbor";
    }
    if SplitName(name).1 == Some("cbor") {
      var i := LastDot(name).value;
      assert name[i..] == "." + name[i + 1..] == ".cbor";
    }
  }

  lemma ChunkNamesDistinct(m: nat, n: nat)
    requires ChunkName(m) == ChunkName(n)
    ensures m == n
  {
    var a, b := Padded(m, 10), Padded(n, 10);
    assert |a| == |b|;
    assert a == ChunkName(m)[..|a|] && b == ChunkName(n)[..|b|];
    PaddedValue(m, 10);
    PaddedValue(n, 10);
  }

  lemma PowerOfTen()
    ensures Pow10(10) == NAME_LIMIT && Pow10(9) == 1_000_000_000
  {
    assert Pow10(3) == 10 * Pow10(2) == 1000;
    assert Pow10(5) == 10 * Pow10(4) && Pow10(7) == 10 * Pow10(6) && Pow10(9) == 10 * Pow10(8);
    assert Pow10(4) == 10 * Pow10(3) && Pow10(6) == 10 * Pow10(5) && Pow10(8) == 10 * Pow10(7);
  }

  lemma TenDigits(n: nat)
    ensures |Padded(n, 10)| == 10 <==> n < NAME_LIMIT
    ensures |Padded(n, 10)| >= 10
  {
    DigitsLength(n, 10);
    PowerOfTen();
    if n < NAME_LIMIT {
      assert |Padded(n, 10)| == 10;
    }
  }

  function DigitAt(p: string, i: nat): int
    requires i < |p|
  {
    p[i] as int - '0' as int
  }

  /** Five decimal digits as a number. */
  function FiveDigits(p: string): int
    requires |p| == 5
  {
    10_000 * DigitAt(p, 0) + 1000 * DigitAt(p, 1) + 100 * DigitAt(p, 2) + 10 * DigitAt(p, 3) + DigitAt(p, 4)
  }

  lemma FiveMoreDigits(p: string, k: nat)
    requires AllDigits(p) && k + 5 <= |p|
    ensures Value(p[..k + 5]) == 100_000 * Value(p[..k]) + FiveDigits(p[k..k + 5])
  {
    Prefixes(p, k + 1);
    Prefixes(p, k + 2);
    Prefixes(p, k + 3);
    Prefixes(p, k + 4);
    Prefixes(p, k + 5);
    hide Value, AllDigits;
  }

  lemma Prefixes(p: string, n: nat)
    requires AllDigits(p) && 0 < n <= |p|
    ensures Value(p[..n]) == 10 * Value(p[..n - 1]) + DigitAt(p, n - 1)
  {
    assert p[..n][..n - 1] == p[..n - 1];
  }

  /** A name below the limit: the ten digits of the number, then ".cbor"; while it is being
      written, then ".tmp" as well. */
  lemma ChunkNameForm(n: nat)
    requires n < 10_000_000_000
    ensures var name := ChunkName(n);
      && |name| == 15 && name[10..] == ".cbor" && TmpName(n) == name + ".tmp"
      && (forall i :: 0 <= i < 10 ==> '0' <= name[i] <= '9')
    ensures n == 100_000 * FiveDigits(ChunkName(n)[..5]) + FiveDigits(ChunkName(n)[5..10])
  {
    TenDigits(n);
    PaddedValue(n, 10);
    var p := Padded(n, 10);
    FiveMoreDigits(p, 0);
    FiveMoreDigits(p, 5);
    assert Value(p[..0]) == 0 && p[..10] == p;
    assert ChunkName(n)[..5] == p[..5] && ChunkName(n)[5..10] == p[5..10];
    assert forall i :: 0 <= i < 10 ==> ChunkName(n)[i] == p[i] && IsDigit(p[i]);
    assert TmpName(n) == ChunkName(n) + ".tmp" by { assert p + ".cbor.tmp" == (p + ".cbor") + ".tmp"; }
    hide Padded, Value, FiveDigits;
  }

  /** Below the ten-digit limit, name order is numeric order. */
  lemma NameOrder(m: nat, n: nat)
    requires m < NAME_LIMIT && n < NAME_LIMIT
    ensures LexLt(ChunkName(m), ChunkName(n)) <==> m < n
  {
    TenDigits(m);
    TenDigits(n);
    LexSuffix(Padded(m, 10), Padded(n, 10), ".cbor", ".cbor");
    LexTotal(".cbor", ".cbor");
    LexIsNumeric(Padded(m, 10), Padded(n, 10));
    PaddedValue(m, 10);
    PaddedValue(n, 10);
  }

  ghost predicate OrderedBelow(bound: nat)
  {
    forall m: nat, n: nat :: m < n < bound ==> LexLt(ChunkName(m), ChunkName(n))
  }

  /** The ten-digit limit is exact: one number further and the order breaks,
      because "10000000000.cbor" sorts before "9999999999.cbor". */
  lemma NameOrderLimit(bound: nat)
    ensures OrderedBelow(bound) <==> bound <= NAME_LIMIT
  {
    if bound <= NAME_LIMIT {
      forall m: nat, n: nat | m < n < bound ensures LexLt(ChunkName(m), ChunkName(n)) {
        NameOrder(m, n);
      }
    } else {
      PowerOfTen();
      assert Digits(NAME_LIMIT)[0] == '1' by { LeadingDigit(NAME_LIMIT, 1, 10); }
      assert Digits(NAME_LIMIT - 1)[0] == '9' by { LeadingDigit(NAME_LIMIT - 1, 9, 9); }
      var m := NAME_LIMIT - 1;
      DigitsLength(m, 9);
      DigitsLength(NAME_LIMIT, 9);
      assert ChunkName(m)[0] == '9' && ChunkName(NAME_LIMIT)[0] == '1';
      assert !LexLt(ChunkName(m), ChunkName(NAME_LIMIT));
    }
  }
}
