/** Decimal numerals as the daemon writes and reads them: `{}` and `{:0w}`
    formatting, integer parsing, and byte-wise order of numerals. */
module Decimal {
  import opened Prelude

  predicate IsDigit(c: char) { '0' <= c <= '9' }

  predicate AllDigits(s: string) { forall i :: 0 <= i < |s| ==> IsDigit(s[i]) }

  function DigitChar(d: nat): (c: char)
    requires d < 10
    ensures IsDigit(c) && c as int - '0' as int == d
  {
    ('0' as int + d) as char
  }

  /** `format!("{n}")`. */
  function Digits(n: nat): (s: string)
    ensures s != [] && AllDigits(s)
  {
    if n < 10 then [DigitChar(n)] else Digits(n / 10) + [DigitChar(n % 10)]
  }

  function Zeros(w: nat): (s: string)
    ensures |s| == w && forall i :: 0 <= i < |s| ==> s[i] == '0'
  {
    if w == 0 then [] else Zeros(w - 1) + ['0']
  }

  /** `format!("{n:0w}")`: zero-padded to w, never truncated. */
  function Padded(n: nat, w: nat): (s: string)
    ensures s != [] && AllDigits(s)
  {
    var d := Digits(n);
    if |d| >= w then d else Zeros(w - |d|) + d
  }

  function Value(s: string): nat
    requires AllDigits(s)
  {
    if s == [] then 0
    else Value(s[..|s| - 1]) * 10 + (s[|s| - 1] as int - '0' as int)
  }

  function Pow10(w: nat): (p: nat)
    ensures p > 0
  {
    if w == 0 then 1 else 10 * Pow10(w - 1)
  }

  lemma {:induction false} DigitsValue(n: nat)
    ensures Value(Digits(n)) == n
  {
    if n < 10 {
      assert Digits(n)[..0] == [];
    } else {
      DigitsValue(n / 10);
      assert Digits(n)[..|Digits(n)| - 1] == Digits(n / 10);
    }
  }

  lemma {:induction false} LeadingZeros(w: nat, s: string)
    requires AllDigits(s)
    ensures Value(Zeros(w) + s) == Value(s)
    decreases |s|, w
  {
    if s == [] {
      assert Zeros(w) + s == Zeros(w);
      if w > 0 {
        assert Zeros(w)[..w - 1] == Zeros(w - 1) == Zeros(w - 1) + s;
        LeadingZeros(w - 1, s);
      }
    } else {
      var t := Zeros(w) + s;
      assert t[..|t| - 1] == Zeros(w) + s[..|s| - 1];
      LeadingZeros(w, s[..|s| - 1]);
    }
  }

  lemma PaddedValue(n: nat, w: nat)
    ensures Value(Padded(n, w)) == n
  {
    DigitsValue(n);
    if |Digits(n)| < w {
      LeadingZeros(w - |Digits(n)|, Digits(n));
    }
  }

  lemma {:induction false} DigitsLength(n: nat, w: nat)
    requires w > 0
    ensures |Digits(n)| <= w <==> n < Pow10(w)
  {
    if w == 1 {
      assert Pow10(1) == 10 * Pow10(0);
    } else if n >= 10 {
      DigitsLength(n / 10, w - 1);
    } else {
      assert Pow10(w) == 10 * Pow10(w - 1) >= 10;
    }
  }

  lemma {:induction false} LeadingDigit(n: nat, d: nat, w: nat)
    requires 0 < d < 10 && d * Pow10(w) <= n < d * Pow10(w) + Pow10(w)
    ensures Digits(n)[0] == DigitChar(d)
  {
    if w > 0 {
      Scaled(d, Pow10(w - 1), n);
      LeadingDigit(n / 10, d, w - 1);
    }
  }

  lemma Scaled(d: nat, p: nat, n: nat)
    requires d > 0 && p > 0 && d * (10 * p) <= n < d * (10 * p) + 10 * p
    ensures d * p <= n / 10 < d * p + p && n >= 10
  {
    var q := d * p;
    assert d * (10 * p) == 10 * q;
    assert q > 0;
  }

  lemma DigitsInjective(m: nat, n: nat)
    requires Digits(m) == Digits(n)
    ensures m == n
  {
    DigitsValue(m);
    DigitsValue(n);
  }

  // ---- byte-wise order -------------------------------------------------------

  /** Byte-wise order of file names (`OsStr` comparison; names are ASCII here). */
  predicate LexLt(a: string, b: string)
  {
    b != [] && (a == [] || a[0] < b[0] || (a[0] == b[0] && LexLt(a[1..], b[1..])))
  }

  lemma {:induction false} LexTotal(a: string, b: string)
    ensures LexLt(a, b) || LexLt(b, a) || a == b
    ensures !(LexLt(a, b) && LexLt(b, a))
    ensures !LexLt(a, a)
  {
    if a != [] {
      LexTotal(a[1..], a[1..]);
      if b != [] && a[0] == b[0] {
        LexTotal(a[1..], b[1..]);
        assert a == [a[0]] + a[1..] && b == [b[0]] + b[1..];
      }
    }
  }

  lemma {:induction false} LexTransitive(a: string, b: string, c: string)
    requires LexLt(a, b) && LexLt(b, c)
    ensures LexLt(a, c)
  {
    if a != [] && a[0] == b[0] == c[0] {
      LexTransitive(a[1..], b[1..], c[1..]);
    }
  }

  /** Comparing equal-length strings decides before any common suffix is reached. */
  lemma {:induction false} LexSuffix(a: string, b: string, s: string, t: string)
    requires |a| == |b|
    ensures LexLt(a + s, b + t) <==> LexLt(a, b) || (a == b && LexLt(s, t))
  {
    if a == [] {
      assert a + s == s && b + t == t;
    } else {
      assert (a + s)[1..] == a[1..] + s && (b + t)[1..] == b[1..] + t;
      LexSuffix(a[1..], b[1..], s, t);
      LexTotal(a, b);
      assert a == [a[0]] + a[1..] && b == [b[0]] + b[1..];
    }
  }

  /** Equal-length numerals are ordered as the numbers they denote. */
  lemma {:induction false} LexIsNumeric(a: string, b: string)
    requires |a| == |b| && AllDigits(a) && AllDigits(b)
    ensures LexLt(a, b) <==> Value(a) < Value(b)
    ensures a == b <==> Value(a) == Value(b)
  {
    if a != [] {
      var n := |a| - 1;
      LexIsNumeric(a[..n], b[..n]);
      assert a == a[..n] + [a[n]] && b == b[..n] + [b[n]];
      LexSuffix(a[..n], b[..n], [a[n]], [b[n]]);
    }
  }

  // ---- parsing ---------------------------------------------------------------

  /** `str::parse` for an unsigned type with `bound` values: an optional '+', then
      at least one digit, and the number must fit. */
  function ParseUnsigned(s: string, bound: nat): (r: Option<nat>)
  {
    var d := if s != [] && s[0] == '+' then s[1..] else s;
    if d == [] || !AllDigits(d) || Value(d) >= bound then None else Some(Value(d))
  }

  lemma ParsePadded(n: nat, w: nat, bound: nat)
    ensures ParseUnsigned(Padded(n, w), bound) == if n < bound then Some(n) else None
  {
    PaddedValue(n, w);
    assert Padded(n, w)[0] != '+';
  }

  lemma {:induction false} ValueBound(s: string)
    requires AllDigits(s)
    ensures Value(s) < Pow10(|s|)
  {
    if s != [] {
      ValueBound(s[..|s| - 1]);
    }
  }

  /** Every string of digits is a numeral padded to its length. */
  lemma DigitsArePadded(s: string)
    requires s != "" && AllDigits(s)
    ensures s == Padded(Value(s), |s|)
  {
    ValueBound(s);
    DigitsLength(Value(s), |s|);
    PaddedValue(Value(s), |s|);
    LexIsNumeric(s, Padded(Value(s), |s|));
  }

  ghost predicate Numeral(s: string, n: nat) { exists w :: s == Padded(n, w) }

  /** Parsing reads zero-padded numerals below the bound, with or without a plus sign in
      front, and nothing else. */
  lemma ParseUnsignedIff(s: string, bound: nat, n: nat)
    ensures ParseUnsigned(s, bound) == Some(n)
       <==> n < bound && (Numeral(s, n) || (s != "" && s[0] == '+' && Numeral(s[1..], n)))
  {
    var d := if s != [] && s[0] == '+' then s[1..] else s;
    if d != "" && AllDigits(d) {
      DigitsArePadded(d);
      assert Numeral(d, Value(d));
    }
    if Numeral(s, n) {
      var w :| s == Padded(n, w);
      PaddedValue(n, w);
      assert IsDigit(s[0]);
    }
    if s != "" && Numeral(s[1..], n) {
      var w :| s[1..] == Padded(n, w);
      PaddedValue(n, w);
    }
  }
}
