/** Printing a well-formed syslog line and parsing it gives back its parts, and the
    two PRI grammars do not capture each other's lines
    (src/sources/syslog.rs:109-285). */
module SyslogRoundTrip {
  import opened Prelude
  import opened Decimal
  import opened LogEntries
  import opened Ansi
  import opened Syslog

  // ---- string lemmas ------------------------------------------------------------------------

  /** The first c is where it was put. */
  lemma {:induction false} FindAfter(a: string, c: char, b: string)
    requires c !in a
    ensures Find(a + ([c] + b), c) == Some(|a|)
    ensures (a + ([c] + b))[..|a|] == a && (a + ([c] + b))[|a| + 1..] == b
  {
    var s := a + ([c] + b);
    if a == "" {
      assert s == [c] + b;
    } else {
      assert s[1..] == a[1..] + ([c] + b) && s[0] == a[0];
      FindAfter(a[1..], c, b);
    }
  }

  lemma SplitStep(a: string, b: string, n: nat)
    requires ' ' !in a && n > 1
    ensures SplitN(a + ([' '] + b), n) == [a] + SplitN(b, n - 1)
  {
    FindAfter(a, ' ', b);
  }

  lemma AfterSpacesStep(a: string, b: string, n: nat)
    requires ' ' !in a && n > 0
    ensures AfterSpaces(a + ([' '] + b), n) == AfterSpaces(b, n - 1)
  {
    FindAfter(a, ' ', b);
  }

  /** A word: not empty, and nothing in it that separates tokens. */
  predicate IsWord(s: string) { s != "" && forall i :: 0 <= i < |s| ==> !IsAsciiSpace(s[i]) }

  lemma {:induction false} TokenLengthOfWord(w: string, b: string)
    requires forall i :: 0 <= i < |w| ==> !IsAsciiSpace(w[i])
    ensures TokenLength(w + ([' '] + b)) == |w|
  {
    if w == "" {
      assert w + ([' '] + b) == [' '] + b;
    } else {
      assert (w + ([' '] + b))[1..] == w[1..] + ([' '] + b) && (w + ([' '] + b))[0] == w[0];
      TokenLengthOfWord(w[1..], b);
    }
  }

  lemma TokenStep(w: string, b: string)
    requires IsWord(w)
    ensures Tokens(w + ([' '] + b)) == [w] + Tokens(b)
  {
    var s := w + ([' '] + b);
    TokenLengthOfWord(w, b);
    assert s[0] == w[0] && s[..|w|] == w && s[|w|..] == [' '] + b;
    assert ([' '] + b)[1..] == b;
    assert Tokens([' '] + b) == Tokens(b);
  }

  lemma {:induction false} ColonSpaceAfter(a: string, b: string)
    requires ' ' !in a
    ensures FindColonSpace(a + (": " + b)) == Some(|a|)
    ensures (a + (": " + b))[|a| + 2..] == b
  {
    var s := a + (": " + b);
    if a == "" {
      assert s == ": " + b;
    } else {
      assert s[1..] == a[1..] + (": " + b) && s[0] == a[0];
      assert s[1] == if |a| > 1 then a[1] else ':';
      ColonSpaceAfter(a[1..], b);
    }
  }

  /** A word that does not end in a colon hides no ": ". */
  lemma {:induction false} ColonSpaceAfterWord(w: string, a: string, b: string)
    requires ' ' !in w && ' ' !in a && (w != "" ==> w[|w| - 1] != ':')
    ensures FindColonSpace(w + ([' '] + (a + (": " + b)))) == Some(|w| + 1 + |a|)
  {
    var tail := a + (": " + b);
    var s := w + ([' '] + tail);
    ColonSpaceAfter(a, b);
    if w == "" {
      assert s[1..] == tail && s[0] == ' ';
    } else {
      assert s[1..] == w[1..] + ([' '] + tail) && s[0] == w[0];
      assert s[1] == if |w| > 1 then w[1] else ' ';
      ColonSpaceAfterWord(w[1..], a, b);
    }
  }

  lemma TrimOne(s: string, c: char)
    requires s == "" || s[|s| - 1] != c
    ensures TrimEndChar(s + [c], c) == s
  {
    assert (s + [c])[..|s|] == s;
  }

  lemma ParseDigitsI64(n: nat)
    requires n < 0x8000_0000_0000_0000
    ensures ParseI64(Digits(n)) == Some(n)
  {
    DigitsValue(n);
    assert IsDigit(Digits(n)[0]);
  }

  /** A printed PRI gives the severity of its low three bits. */
  lemma PriorityRoundTrip(pri: nat)
    requires pri < 256
    ensures ParsePriority(Digits(pri)) == SeverityOf(pri)
    ensures pri % 8 in {0, 1, 2} ==> SeverityOf(pri) == Critical
    ensures pri % 8 == 3 ==> SeverityOf(pri) == Error
    ensures pri % 8 == 4 ==> SeverityOf(pri) == Warning
    ensures pri % 8 in {5, 6} ==> SeverityOf(pri) == Info
    ensures pri % 8 == 7 ==> SeverityOf(pri) == Debug
  {
    DigitsValue(pri);
    assert IsDigit(Digits(pri)[0]);
  }

  /** Anything but a numeral below 256, with or without a plus sign, counts as Info. */
  lemma OddPriorityIsInfo(pri: string)
    requires forall n: nat :: Numeral(pri, n) || (pri != "" && pri[0] == '+' && Numeral(pri[1..], n)) ==> n >= 256
    ensures ParsePriority(pri) == Info
  {
    match ParseUnsigned(pri, 0x100)
    case Some(n) => ParseUnsignedIff(pri, 0x100, n);
    case None =>
  }

  lemma {:induction false} TrimmedStart(gap: string, s: string)
    requires (forall i :: 0 <= i < |gap| ==> IsWhitespace(gap[i])) && (s == "" || !IsWhitespace(s[0]))
    ensures TrimStart(gap + s) == s
  {
    if gap == "" {
      assert gap + s == s;
    } else {
      assert (gap + s)[1..] == gap[1..] + s;
      TrimmedStart(gap[1..], s);
    }
  }

  function Repeat(c: char, n: nat): (s: string)
    ensures |s| == n && forall i :: 0 <= i < n ==> s[i] == c
  {
    seq(n, i => c)
  }

  /** All of the marks in front go. */
  lemma {:induction false} TrimmedMarks(c: char, n: nat, s: string)
    requires s == "" || s[0] != c
    ensures TrimStartChar(Repeat(c, n) + s, c) == s
  {
    if n == 0 {
      assert Repeat(c, 0) + s == s;
    } else {
      assert (Repeat(c, n) + s)[1..] == Repeat(c, n - 1) + s;
      TrimmedMarks(c, n - 1, s);
    }
  }

  /** All of the marks at the end go. */
  lemma {:induction false} TrimmedEnd(s: string, c: char, n: nat)
    requires s == "" || s[|s| - 1] != c
    ensures TrimEndChar(s + Repeat(c, n), c) == s
  {
    if n == 0 {
      assert s + Repeat(c, 0) == s;
    } else {
      var t := s + Repeat(c, n);
      assert t[|t| - 1] == Repeat(c, n)[n - 1];
      assert t[..|t| - 1] == s + Repeat(c, n - 1);
      TrimmedEnd(s, c, n - 1);
    }
  }

  lemma DigitsHaveNo(n: nat, c: char)
    requires !IsDigit(c)
    ensures c !in Digits(n)
  {
    assert forall i :: 0 <= i < |Digits(n)| ==> IsDigit(Digits(n)[i]);
  }

  /** A printed PRI is split off again. */
  lemma PriStep(pri: string, rest: string)
    requires '>' !in pri
    ensures SplitPri("<" + (pri + (['>'] + rest))) == Some((pri, rest))
  {
    var a := "<" + pri;
    var line := "<" + (pri + (['>'] + rest));
    assert line == a + (['>'] + rest);
    assert '>' !in a;
    FindAfter(a, '>', rest);
    assert line[1..|a|] == a[1..] == pri;
  }

  // ---- RFC 5424 -------------------------------------------------------------------------------

  datatype Header = Header(timestamp: string, host: string, app: string, procId: string, msgId: string, sd: string)

  predicate Field(s: string) { ' ' !in s }

  /** Space-free fields; the timestamp, which the version is trimmed against, does not
      start with whitespace. */
  predicate WellFormed(h: Header)
  {
    Field(h.timestamp) && Field(h.host) && Field(h.app) && Field(h.procId) && Field(h.msgId) && Field(h.sd)
    && h.timestamp != "" && !IsWhitespace(h.timestamp[0])
  }

  function PrintHeader(h: Header, msg: string): string
  {
    h.timestamp + ([' '] + (h.host + ([' '] + (h.app + ([' '] + (h.procId + ([' '] + (h.msgId + ([' ']
      + (h.sd + ([' '] + msg)))))))))))
  }

  /** The version is followed by any whitespace, or none. */
  function Print5424(pri: string, gap: string, h: Header, msg: string): string
  {
    "<" + (pri + (['>'] + ("1" + (gap + PrintHeader(h, msg)))))
  }

  lemma HeaderParts(h: Header, msg: string)
    requires WellFormed(h)
    ensures SplitN(PrintHeader(h, msg), 7) == [h.timestamp, h.host, h.app, h.procId, h.msgId, h.sd, msg]
  {
    hide SplitN;
    var m6 := h.sd + ([' '] + msg);
    var m5 := h.msgId + ([' '] + m6);
    var m4 := h.procId + ([' '] + m5);
    var m3 := h.app + ([' '] + m4);
    var m2 := h.host + ([' '] + m3);
    SplitStep(h.timestamp, m2, 7);
    SplitStep(h.host, m3, 6);
    SplitStep(h.app, m4, 5);
    SplitStep(h.procId, m5, 4);
    SplitStep(h.msgId, m6, 3);
    SplitStep(h.sd, msg, 2);
    SplitLast(msg);
  }

  lemma SplitLast(s: string)
    ensures SplitN(s, 1) == [s]
  {
  }

  predicate Blank(s: string) { forall i :: 0 <= i < |s| ==> IsWhitespace(s[i]) }

  lemma VersionTrimmed(gap: string, h: Header, msg: string)
    requires WellFormed(h) && Blank(gap)
    ensures var rest := "1" + (gap + PrintHeader(h, msg));
      rest != "" && rest[0] == '1' && TrimStart(rest[1..]) == PrintHeader(h, msg)
  {
    var body := PrintHeader(h, msg);
    assert body != "" && body[0] == h.timestamp[0];
    hide PrintHeader;
    assert ("1" + (gap + body))[1..] == gap + body;
    TrimmedStart(gap, body);
  }

  lemma Parse5424(pri: string, gap: string, h: Header, msg: string, iso: string -> Option<nat>)
    requires WellFormed(h) && Blank(gap) && '>' !in pri
    ensures TryRfc5424(Print5424(pri, gap, h, msg), iso)
         == Some(Entry5424(pri, [h.timestamp, h.host, h.app, h.procId, h.msgId, h.sd, msg], iso))
  {
    hide SplitN, SplitPri, PrintHeader, Entry5424, TrimStart, WellFormed;
    PriStep(pri, "1" + (gap + PrintHeader(h, msg)));
    VersionTrimmed(gap, h, msg);
    HeaderParts(h, msg);
  }

  ghost predicate HasStr(e: LogEntry, key: string, value: string)
  {
    key in e.labels && e.labels[key] == Str(value)
  }

  ghost predicate HasPid(e: LogEntry, pid: Option<int>)
  {
    if pid.Some? then "pid" in e.labels && e.labels["pid"] == Int(pid.value) else "pid" !in e.labels
  }

  lemma Labels5424(pri: string, h: Header, marks: nat, msg: string, iso: string -> Option<nat>)
    requires msg == "" || msg[0] != '\U{feff}'
    ensures var e := Entry5424(pri, [h.timestamp, h.host, h.app, h.procId, h.msgId, h.sd, Repeat('\U{feff}', marks) + msg], iso);
      && e.body == msg && e.severity == Some(ParsePriority(pri)) && e.timestampMs == iso(h.timestamp)
      && e.uptimeMs == None && e.source == "syslog"
      && (if h.host != "-" then HasStr(e, "hostname", h.host) else "hostname" !in e.labels)
      && (if h.app != "-" then HasStr(e, "process", h.app) else "process" !in e.labels)
      && HasPid(e, ParseI64(h.procId)) && HasStr(e, "source", "syslog")
      && e.labels.Keys <= {"source", "hostname", "process", "pid"}
  {
    TrimmedMarks('\U{feff}', marks, msg);
    hide ParsePriority, ParseI64;
  }

  /** RFC 5424 round trip: message without its byte order marks and escape sequences,
      severity, timestamp, host, process and pid ("-" stands for an absent host or process);
      nothing else is set. */
  lemma RoundTrip5424(pri: string, gap: string, h: Header, marks: nat, msg: string, iso: string -> Option<nat>)
    requires WellFormed(h) && Blank(gap) && '>' !in pri && (msg == "" || msg[0] != '\U{feff}')
    ensures var e := ParseLine(Print5424(pri, gap, h, Repeat('\U{feff}', marks) + msg), iso);
      && e.body == StripAnsi(msg) && e.severity == Some(ParsePriority(pri)) && e.timestampMs == iso(h.timestamp)
      && e.uptimeMs == None && e.source == "syslog"
      && (if h.host != "-" then HasStr(e, "hostname", h.host) else "hostname" !in e.labels)
      && (if h.app != "-" then HasStr(e, "process", h.app) else "process" !in e.labels)
      && HasPid(e, ParseI64(h.procId)) && HasStr(e, "source", "syslog")
      && e.labels.Keys <= {"source", "hostname", "process", "pid"}
  {
    hide TryRfc5424, Print5424, ParsePriority, ParseI64, Entry5424, WellFormed, StripAnsi;
    Parse5424(pri, gap, h, Repeat('\U{feff}', marks) + msg, iso);
    Labels5424(pri, h, marks, msg, iso);
  }

  /** The converse: every line that this parser takes has that form. */
  lemma Taken5424(line: string, iso: string -> Option<nat>) returns (pri: string, gap: string, h: Header, msg: string)
    requires TryRfc5424(line, iso).Some?
    ensures line == Print5424(pri, gap, h, msg) && WellFormed(h) && Blank(gap) && '>' !in pri
  {
    var rest := VersionTaken(line, iso);
    pri := PriTaken(line, rest);
    hide *;
    var s: string;
    gap, s := StartTrimmed(rest);
    h, msg := HeaderTaken(s);
    ConcatAssoc("1", gap, s);
    Spelled5424(pri, gap, h, msg);
  }

  lemma Spelled5424(pri: string, gap: string, h: Header, msg: string)
    ensures Print5424(pri, gap, h, msg) == "<" + (pri + (['>'] + ("1" + (gap + PrintHeader(h, msg)))))
  {
  }

  lemma VersionTaken(line: string, iso: string -> Option<nat>) returns (rest: string)
    requires TryRfc5424(line, iso).Some?
    ensures SplitPri(line).Some? && SplitPri(line).value.1 == "1" + rest && |SplitN(TrimStart(rest), 7)| >= 7
  {
    hide SplitPri, SplitN, TrimStart, Entry5424;
    rest := SplitPri(line).value.1[1..];
  }

  lemma HeaderTaken(s: string) returns (h: Header, msg: string)
    requires |SplitN(s, 7)| >= 7 && (s == "" || !IsWhitespace(s[0]))
    ensures WellFormed(h) && s == PrintHeader(h, msg)
  {
    hide SplitN;
    var timestamp, s1 := FieldTaken(s, 7);
    var host, s2 := FieldTaken(s1, 6);
    var app, s3 := FieldTaken(s2, 5);
    var procId, s4 := FieldTaken(s3, 4);
    var msgId, s5 := FieldTaken(s4, 3);
    var sd, s6 := FieldTaken(s5, 2);
    h, msg := Header(timestamp, host, app, procId, msgId, sd), s6;
    assert s[0] == if timestamp == "" then ' ' else timestamp[0];
  }

  lemma PriTaken(line: string, rest: string) returns (pri: string)
    requires SplitPri(line).Some? && SplitPri(line).value.1 == "1" + rest
    ensures line == "<" + (pri + (['>'] + ("1" + rest))) && '>' !in pri
  {
    var end := Find(line, '>').value;
    pri := line[1..end];
    assert line == line[..1] + line[1..end] + [line[end]] + line[end + 1..];
    assert forall i :: 0 <= i < |pri| ==> pri[i] == line[..end][i + 1];
  }

  lemma {:induction false} StartTrimmed(s: string) returns (gap: string, t: string)
    ensures s == gap + t && t == TrimStart(s) && Blank(gap) && (t == "" || !IsWhitespace(t[0]))
  {
    if s != "" && IsWhitespace(s[0]) {
      gap, t := StartTrimmed(s[1..]);
      gap := [s[0]] + gap;
    } else {
      gap, t := "", s;
    }
  }

  /** A split into at least two parts starts with a field and a space. */
  lemma FieldTaken(s: string, n: nat) returns (field: string, rest: string)
    requires n > 1 && |SplitN(s, n)| >= n
    ensures ' ' !in field && s == field + ([' '] + rest) && |SplitN(rest, n - 1)| >= n - 1
  {
    var i := Find(s, ' ').value;
    field, rest := s[..i], s[i + 1..];
  }

  // ---- RFC 3164 -------------------------------------------------------------------------------

  datatype Legacy = Legacy(month: string, day: nat, time: string, host: string, process: string, pid: Option<nat>)

  /** Space-free words; the month does not look like a version, the host does not end
      in a colon, and the process name neither ends in one nor opens a bracket. */
  predicate WellFormedLegacy(l: Legacy)
  {
    && IsWord(l.month) && l.month[0] != '1' && l.day < 100
    && IsWord(l.time) && IsWord(l.host) && l.host[|l.host| - 1] != ':'
    && IsWord(l.process) && '[' !in l.process && l.process[|l.process| - 1] != ':'
    && (l.pid.Some? ==> l.pid.value < 0x8000_0000_0000_0000)
  }

  /** One-digit days are padded with a space. */
  function PrintDay(day: nat): string { (if day < 10 then " " else "") + Digits(day) }

  function PrintTag(l: Legacy): string
  {
    l.process + (match l.pid case Some(p) => "[" + (Digits(p) + "]") case None => "")
  }

  function AfterDay(l: Legacy, msg: string): string
  {
    l.time + ([' '] + (l.host + ([' '] + (PrintTag(l) + (": " + msg)))))
  }

  function PrintRest(l: Legacy, msg: string): string
  {
    l.month + ([' '] + (PrintDay(l.day) + ([' '] + AfterDay(l, msg))))
  }

  function Print3164(pri: nat, l: Legacy, msg: string): string
  {
    "<" + (Digits(pri) + (['>'] + PrintRest(l, msg)))
  }

  lemma TagIsWord(l: Legacy)
    requires WellFormedLegacy(l)
    ensures IsWord(PrintTag(l) + ":") && ' ' !in PrintTag(l)
    ensures PrintTag(l)[|PrintTag(l)| - 1] != ':'
  {
    match l.pid
    case None => assert PrintTag(l) == l.process;
    case Some(p) =>
      var d := Digits(p);
      assert forall i :: 0 <= i < |d| ==> IsDigit(d[i]);
      hide Digits;
      var t := PrintTag(l);
      assert t == l.process + "[" + d + "]";
      assert t[|t| - 1] == ']';
  }

  lemma TagParts(l: Legacy)
    requires WellFormedLegacy(l)
    ensures ParseTag(TrimEndChar(PrintTag(l) + ":", ':'))
         == (l.process, match l.pid case Some(p) => Some(p) case None => None)
  {
    TagIsWord(l);
    TrimOne(PrintTag(l), ':');
    match l.pid
    case None =>
      assert PrintTag(l) == l.process;
      assert Find(l.process, '[') == None;
    case Some(p) =>
      var d := Digits(p);
      DigitsHaveNo(p, ']');
      ParseDigitsI64(p);
      hide Digits, ParseI64;
      assert PrintTag(l) == l.process + (['['] + (d + "]"));
      FindAfter(l.process, '[', d + "]");
      assert d[|d| - 1] in d;
      TrimOne(d, ']');
  }

  lemma DayIsWord(day: nat)
    ensures IsWord(Digits(day))
  {
    assert forall i :: 0 <= i < |Digits(day)| ==> IsDigit(Digits(day)[i]);
  }

  /** The third to fifth tokens are time, host and tag. */
  lemma TokensAfterDay(l: Legacy, msg: string)
    requires WellFormedLegacy(l)
    ensures Tokens(AfterDay(l, msg)) == [l.time, l.host, PrintTag(l) + ":"] + Tokens(msg)
  {
    TagIsWord(l);
    hide IsWord, Tokens;
    var tag := PrintTag(l) + ":";
    var m2 := tag + ([' '] + msg);
    var m1 := l.host + ([' '] + m2);
    assert PrintTag(l) + (": " + msg) == m2;
    TokenStep(l.time, m1);
    TokenStep(l.host, m2);
    TokenStep(tag, msg);
    assert [l.time] + ([l.host] + ([tag] + Tokens(msg))) == [l.time, l.host, tag] + Tokens(msg);
  }

  lemma DayTokens(d: string, padded: bool, tail: string)
    requires IsWord(d)
    ensures Tokens(((if padded then " " else "") + d) + ([' '] + tail)) == [d] + Tokens(tail)
  {
    hide Tokens;
    var s := d + ([' '] + tail);
    TokenStep(d, tail);
    if padded {
      assert (" " + d) + ([' '] + tail) == [' '] + s;
      LeadingSpace(s);
    } else {
      assert ("" + d) + ([' '] + tail) == s;
    }
  }

  lemma RestTokens(l: Legacy, msg: string)
    requires WellFormedLegacy(l)
    ensures Tokens(PrintRest(l, msg)) == [l.month, Digits(l.day), l.time, l.host, PrintTag(l) + ":"] + Tokens(msg)
  {
    DayIsWord(l.day);
    TokensAfterDay(l, msg);
    var a, d, month := AfterDay(l, msg), Digits(l.day), l.month;
    var words := [l.time, l.host, PrintTag(l) + ":"];
    hide *;
    TokenStep(month, PrintDay(l.day) + ([' '] + a));
    DayTokens(d, l.day < 10, a);
    DayPrinted(l, msg);
    assert [month] + ([d] + (words + Tokens(msg))) == [month, d, l.time, l.host, PrintTag(l) + ":"] + Tokens(msg);
  }

  lemma DayPrinted(l: Legacy, msg: string)
    ensures PrintRest(l, msg) == l.month + ([' '] + (PrintDay(l.day) + ([' '] + AfterDay(l, msg))))
    ensures PrintDay(l.day) == (if l.day < 10 then " " else "") + Digits(l.day)
  {
  }

  lemma LeadingSpace(s: string)
    ensures Tokens([' '] + s) == Tokens(s)
  {
    assert ([' '] + s)[1..] == s;
  }

  lemma FourSpaces(a: string, b: string, c: string, d: string, tail: string)
    requires ' ' !in a && ' ' !in b && ' ' !in c && ' ' !in d
    ensures TagAndMessage(a + ([' '] + (b + ([' '] + (c + ([' '] + (d + ([' '] + tail)))))))) == tail
  {
    hide AfterSpaces;
    var m3 := d + ([' '] + tail);
    var m2 := c + ([' '] + m3);
    var m1 := b + ([' '] + m2);
    AfterSpacesStep(a, m1, 4);
    AfterSpacesStep(b, m2, 3);
    AfterSpacesStep(c, m3, 2);
    AfterSpacesStep(d, tail, 1);
    NoSpacesLeft(tail);
  }

  lemma NoSpacesIn(l: Legacy)
    requires WellFormedLegacy(l)
    ensures ' ' !in l.month && ' ' !in Digits(l.day) && ' ' !in l.time && ' ' !in l.host && ' ' !in PrintTag(l)
  {
    DayIsWord(l.day);
    TagIsWord(l);
    hide Digits, PrintTag;
  }

  /** Cutting at the fourth space leaves the tag and the message, or for a padded day
      also the host; either way the message is what follows the first ": ". */
  lemma MessageFound(l: Legacy, msg: string)
    requires WellFormedLegacy(l)
    ensures Body3164(PrintRest(l, msg)) == msg
  {
    NoSpacesIn(l);
    var tag, d := PrintTag(l), Digits(l.day);
    var month, time, host := l.month, l.time, l.host;
    assert host != "" ==> host[|host| - 1] != ':';
    assert PrintRest(l, msg)
        == month + ([' '] + (PrintDay(l.day) + ([' '] + (time + ([' '] + (host + ([' '] + (tag + (": " + msg)))))))));
    assert PrintDay(l.day) == (if l.day < 10 then " " else "") + d;
    hide *;
    if l.day < 10 {
      PaddedMessage(month, d, time, host, tag, msg);
    } else {
      assert "" + d == d;
      PlainDayMessage(month, d, time, host, tag, msg);
    }
  }

  lemma PaddedMessage(month: string, d: string, time: string, host: string, tag: string, msg: string)
    requires ' ' !in month && ' ' !in d && ' ' !in time && ' ' !in host && ' ' !in tag
    requires host != "" ==> host[|host| - 1] != ':'
    ensures Body3164(month + ([' '] + ((" " + d) + ([' '] + (time + ([' '] + (host + ([' '] + (tag + (": " + msg))))))))))
         == msg
  {
    hide *;
    var tail := tag + (": " + msg);
    PaddedDay(month, d, time, host, tail);
    FourSpaces(month, "", d, time, host + ([' '] + tail));
    HostThenTag(host, tag, msg);
    BodyIs(month + ([' '] + ((" " + d) + ([' '] + (time + ([' '] + (host + ([' '] + tail))))))), host + ([' '] + tail), msg);
  }

  lemma PlainDayMessage(month: string, d: string, time: string, host: string, tag: string, msg: string)
    requires ' ' !in month && ' ' !in d && ' ' !in time && ' ' !in host && ' ' !in tag
    ensures Body3164(month + ([' '] + (d + ([' '] + (time + ([' '] + (host + ([' '] + (tag + (": " + msg)))))))))) == msg
  {
    hide *;
    var tail := tag + (": " + msg);
    FourSpaces(month, d, time, host, tail);
    TagThenMessage(tag, msg);
    BodyIs(month + ([' '] + (d + ([' '] + (time + ([' '] + (host + ([' '] + tail))))))), tail, msg);
  }

  lemma PaddedDay(month: string, d: string, time: string, host: string, tail: string)
    ensures month + ([' '] + ((" " + d) + ([' '] + (time + ([' '] + (host + ([' '] + tail)))))))
         == month + ([' '] + ("" + ([' '] + (d + ([' '] + (time + ([' '] + (host + ([' '] + tail)))))))))
  {
  }

  lemma HostThenTag(host: string, tag: string, msg: string)
    requires ' ' !in host && ' ' !in tag && (host != "" ==> host[|host| - 1] != ':')
    ensures var t := host + ([' '] + (tag + (": " + msg)));
      FindColonSpace(t).Some? && t[FindColonSpace(t).value + 2..] == msg
  {
    hide FindColonSpace;
    ColonSpaceAfterWord(host, tag, msg);
  }

  lemma TagThenMessage(tag: string, msg: string)
    requires ' ' !in tag
    ensures var t := tag + (": " + msg); FindColonSpace(t).Some? && t[FindColonSpace(t).value + 2..] == msg
  {
    hide FindColonSpace;
    ColonSpaceAfter(tag, msg);
  }

  lemma BodyIs(rest: string, t: string, msg: string)
    requires TagAndMessage(rest) == t && FindColonSpace(t).Some? && t[FindColonSpace(t).value + 2..] == msg
    ensures Body3164(rest) == msg
  {
    hide TagAndMessage, FindColonSpace;
  }

  lemma NoSpacesLeft(s: string)
    ensures AfterSpaces(s, 0) == Some(s)
  {
  }

  /** The RFC 5424 parser rejects an RFC 3164 line: no version follows the PRI. */
  lemma LegacyIsNot5424(pri: nat, l: Legacy, msg: string, iso: string -> Option<nat>)
    requires WellFormedLegacy(l)
    ensures TryRfc5424(Print3164(pri, l, msg), iso) == None
  {
    DigitsHaveNo(pri, '>');
    PriStep(Digits(pri), PrintRest(l, msg));
    assert PrintRest(l, msg)[0] == l.month[0];
    hide PrintRest, SplitPri, Digits;
  }

  function Entry3164(pri: nat, l: Legacy, msg: string): LogEntry
  {
    Entry(msg, Some(SeverityOf(pri)), None,
          AddPid(map["source" := Str("syslog"), "hostname" := Str(l.host), "process" := Str(l.process)],
                 match l.pid case Some(p) => Some(p) case None => None))
  }

  lemma LegacyLabels(l: Legacy, msg: string)
    requires WellFormedLegacy(l)
    ensures Labels3164(PrintRest(l, msg)) == Entry3164(0, l, msg).labels
    ensures TagLabels(BASE_LABELS["hostname" := Str(l.host)], PrintTag(l) + ":") == Entry3164(0, l, msg).labels
  {
    RestTokens(l, msg);
    TagParts(l);
    assert l.process != "";
    hide PrintRest, Digits, Tokens, ParseTag, PrintTag, TrimEndChar, AddPid, SeverityOf, WellFormedLegacy;
    assert BASE_LABELS["hostname" := Str(l.host)]["process" := Str(l.process)]
        == map["source" := Str("syslog"), "hostname" := Str(l.host), "process" := Str(l.process)];
  }

  lemma Parse3164(pri: nat, l: Legacy, msg: string)
    requires pri < 256 && WellFormedLegacy(l) && msg != ""
    ensures TryRfc3164(Print3164(pri, l, msg)) == Some(Entry3164(pri, l, msg))
  {
    DigitsHaveNo(pri, '>');
    hide PrintRest, SplitPri, Digits, Labels3164, Body3164, ParsePriority, SeverityOf, AddPid, WellFormedLegacy;
    PriStep(Digits(pri), PrintRest(l, msg));
    MessageFound(l, msg);
    LegacyLabels(l, msg);
    PriorityRoundTrip(pri);
  }

  /** RFC 3164 round trip, for one- and two-digit days; escape sequences go. */
  lemma RoundTrip3164(pri: nat, l: Legacy, msg: string, iso: string -> Option<nat>)
    requires pri < 256 && WellFormedLegacy(l) && msg != ""
    ensures ParseLine(Print3164(pri, l, msg), iso) == Entry3164(pri, l, msg).(body := StripAnsi(msg))
  {
    LegacyIsNot5424(pri, l, msg, iso);
    Parse3164(pri, l, msg);
    hide TryRfc5424, TryRfc3164, Print3164, StripAnsi, WellFormedLegacy, AddPid, SeverityOf;
  }

  /** Without a message the line is kept whole, as unrecognised. */
  lemma EmptyLegacyIsKept(pri: nat, l: Legacy, iso: string -> Option<nat>)
    requires WellFormedLegacy(l)
    ensures var line := Print3164(pri, l, "");
      ParseLine(line, iso)
        == LogEntry(StripAnsi(line), InferSeverity(StripAnsi(line)), None, None, "syslog", map["source" := Str("syslog")])
  {
    LegacyIsNot5424(pri, l, "", iso);
    DigitsHaveNo(pri, '>');
    PriStep(Digits(pri), PrintRest(l, ""));
    MessageFound(l, "");
    assert Print3164(pri, l, "")[0] == '<';
    hide TryRfc5424, SplitPri, PrintRest, Body3164, Labels3164, StripAnsi, InferSeverity, WellFormedLegacy, Digits;
  }

  // ---- rsyslog's default format ------------------------------------------------------------------

  function PrintDefault(timestamp: string, l: Legacy, msg: string): string
  {
    timestamp + ([' '] + (l.host + ([' '] + ((PrintTag(l) + ":") + ([' '] + msg)))))
  }

  lemma FourParts(a: string, b: string, c: string, d: string)
    requires ' ' !in a && ' ' !in b && ' ' !in c
    ensures SplitN(a + ([' '] + (b + ([' '] + (c + ([' '] + d))))), 4) == [a, b, c, d]
  {
    hide SplitN;
    SplitStep(a, b + ([' '] + (c + ([' '] + d))), 4);
    SplitStep(b, c + ([' '] + d), 3);
    SplitStep(c, d, 2);
    SplitLast(d);
  }

  lemma DefaultParts(timestamp: string, l: Legacy, msg: string)
    requires ' ' !in timestamp && WellFormedLegacy(l)
    ensures SplitN(PrintDefault(timestamp, l, msg), 4) == [timestamp, l.host, PrintTag(l) + ":", msg]
  {
    NoSpacesIn(l);
    hide SplitN, PrintTag, WellFormedLegacy;
    FourParts(timestamp, l.host, PrintTag(l) + ":", msg);
  }

  /** rsyslog default round trip; the severity is the one a tracing-formatted body
      names, since the format carries none. */
  lemma RoundTripDefault(timestamp: string, l: Legacy, gap: string, msg: string, iso: string -> Option<nat>)
    requires timestamp != "" && timestamp[0] != '<' && ' ' !in timestamp && iso(timestamp).Some?
    requires WellFormedLegacy(l) && Blank(gap) && msg != "" && !IsWhitespace(msg[0])
    ensures ParseLine(PrintDefault(timestamp, l, gap + msg), iso)
         == Entry3164(0, l, StripAnsi(msg)).(severity := InferSeverity(StripAnsi(msg)), timestampMs := iso(timestamp))
  {
    DefaultRecognised(timestamp, l, gap, msg, iso);
    var line := PrintDefault(timestamp, l, gap + msg);
    assert line != "" && line[0] == timestamp[0];
    NoPri(line, iso);
    LegacyLabels(l, msg);
    hide TryRfc5424, TryRfc3164, TryRsyslogDefault, PrintDefault, TagLabels, AddPid, StripAnsi, InferSeverity, WellFormedLegacy, PrintTag;
  }

  lemma NoPri(line: string, iso: string -> Option<nat>)
    requires line == "" || line[0] != '<'
    ensures TryRfc5424(line, iso) == None && TryRfc3164(line) == None
  {
  }

  lemma DefaultRecognised(timestamp: string, l: Legacy, gap: string, msg: string, iso: string -> Option<nat>)
    requires timestamp != "" && timestamp[0] != '<' && ' ' !in timestamp && iso(timestamp).Some?
    requires WellFormedLegacy(l) && Blank(gap) && msg != "" && !IsWhitespace(msg[0])
    ensures TryRsyslogDefault(PrintDefault(timestamp, l, gap + msg), iso)
         == Some(Entry(msg, None, iso(timestamp), TagLabels(BASE_LABELS["hostname" := Str(l.host)], PrintTag(l) + ":")))
  {
    DefaultParts(timestamp, l, gap + msg);
    TrimmedStart(gap, msg);
    var line := PrintDefault(timestamp, l, gap + msg);
    assert line != "" && line[0] == timestamp[0];
    hide PrintDefault, SplitN, TagLabels, PrintTag, WellFormedLegacy, TrimStart;
  }
}
