/** What becomes of every syslog line, well-formed or not (src/sources/syslog.rs:109-340):
    which lines each format takes, what a tag, a process id or a tracing-formatted body says,
    and what happens to the rest. */
module SyslogForms {
  import opened Prelude
  import opened Decimal
  import opened LogEntries
  import opened Ansi
  import opened Syslog
  import opened SyslogRoundTrip

  // ---- numbers and tags -----------------------------------------------------------------------

  /** A process id is a numeral in the range of 64-bit signed integers, zero-padded or not,
      with or without a sign. */
  lemma ParseI64Iff(s: string, v: int)
    ensures ParseI64(s) == Some(v)
       <==> || (0 <= v < 0x8000_0000_0000_0000 && (Numeral(s, v) || (s != "" && s[0] == '+' && Numeral(s[1..], v))))
            || (-0x8000_0000_0000_0000 <= v <= 0 && s != "" && s[0] == '-' && Numeral(s[1..], -v))
  {
    if s != "" && s[0] == '-' {
      var d := s[1..];
      if d != "" && AllDigits(d) {
        DigitsArePadded(d);
        assert Numeral(d, Value(d));
      }
      if v <= 0 && Numeral(d, -v) {
        var w :| d == Padded(-v, w);
        PaddedValue(-v, w);
      }
      if v >= 0 {
        NumeralStart(s, v);
      }
    } else if v >= 0 {
      ParseUnsignedIff(s, 0x8000_0000_0000_0000, v);
    }
  }

  lemma NumeralStart(s: string, n: nat)
    ensures Numeral(s, n) ==> s != "" && IsDigit(s[0])
  {
  }

  /** A tag: a name, perhaps "[" and a process id with any closing brackets, and colons. */
  function PrintAnyTag(process: string, pid: Option<string>, brackets: nat, colons: nat): string
  {
    (process + (match pid case Some(d) => "[" + (d + Repeat(']', brackets)) case None => "")) + Repeat(':', colons)
  }

  /** The colons go, then the brackets; an empty name and an id that is not a number leave
      no label. */
  lemma TagMeans(labels: map<string, LabelValue>, process: string, pid: Option<string>, brackets: nat, colons: nat)
    requires '[' !in process
    requires pid.None? && process != "" ==> process[|process| - 1] != ':'
    requires pid.Some? && pid.value != "" ==> pid.value[|pid.value| - 1] !in {']', ':'}
    ensures var named := if process == "" then labels else labels["process" := Str(process)];
      TagLabels(labels, PrintAnyTag(process, pid, brackets, colons))
        == if pid.Some? && ParseI64(pid.value).Some? then named["pid" := Int(ParseI64(pid.value).value)] else named
  {
    hide TagLabels, Repeat, ParseI64;
    match pid
    case None => PlainTag(labels, process, colons);
    case Some(d) => BracketTag(labels, process, d, brackets, colons);
  }

  lemma PlainTag(labels: map<string, LabelValue>, process: string, colons: nat)
    requires '[' !in process && (process != "" ==> process[|process| - 1] != ':')
    ensures TagLabels(labels, (process + "") + Repeat(':', colons)) == AddStr(labels, "process", process, process != "")
  {
    assert process + "" == process;
    assert Find(process, '[') == None;
    CoreTag(labels, process, colons, process, None);
  }

  lemma BracketTag(labels: map<string, LabelValue>, process: string, d: string, brackets: nat, colons: nat)
    requires '[' !in process && (d != "" ==> d[|d| - 1] !in {']', ':'})
    ensures TagLabels(labels, (process + ("[" + (d + Repeat(']', brackets)))) + Repeat(':', colons))
         == AddPid(AddStr(labels, "process", process, process != ""), ParseI64(d))
  {
    var core := process + ("[" + (d + Repeat(']', brackets)));
    BracketParts(process, d, brackets);
    hide *;
    CoreTag(labels, core, colons, process, ParseI64(d));
  }

  lemma CoreTag(labels: map<string, LabelValue>, core: string, colons: nat, process: string, pid: Option<int>)
    requires (core != "" ==> core[|core| - 1] != ':') && ParseTag(core) == (process, pid)
    ensures TagLabels(labels, core + Repeat(':', colons)) == AddPid(AddStr(labels, "process", process, process != ""), pid)
  {
    TrimmedEnd(core, ':', colons);
    hide ParseTag, TrimEndChar, Repeat;
  }

  lemma BracketParts(process: string, d: string, brackets: nat)
    requires '[' !in process && (d != "" ==> d[|d| - 1] !in {']', ':'})
    ensures var core := process + ("[" + (d + Repeat(']', brackets)));
      core[|core| - 1] != ':' && ParseTag(core) == (process, ParseI64(d))
  {
    var inside := d + Repeat(']', brackets);
    var core := process + ("[" + inside);
    assert inside != "" ==> core[|core| - 1] == inside[|inside| - 1];
    FindAfter(process, '[', inside);
    TrimmedEnd(d, ']', brackets);
    hide Repeat, ParseI64, TrimEndChar, Find;
  }

  // ---- tokens and the severity of a body ---------------------------------------------------------

  predicate SpaceChar(c: char) { c == ' ' || c == '\t' || c == '\n' || c == '\U{c}' || c == '\r' }

  predicate Spaces(s: string) { forall i :: 0 <= i < |s| ==> SpaceChar(s[i]) }

  predicate Word(s: string) { s != "" && forall i :: 0 <= i < |s| ==> !SpaceChar(s[i]) }

  predicate Separated(s: string) { s == "" || SpaceChar(s[0]) }

  lemma {:induction false} SpacesSkipped(gap: string, s: string)
    requires Spaces(gap)
    ensures Tokens(gap + s) == Tokens(s)
  {
    if gap == "" {
      assert gap + s == s;
    } else {
      assert (gap + s)[1..] == gap[1..] + s;
      SpacesSkipped(gap[1..], s);
    }
  }

  lemma {:induction false} WordLength(w: string, tail: string)
    requires (forall i :: 0 <= i < |w| ==> !SpaceChar(w[i])) && Separated(tail)
    ensures TokenLength(w + tail) == |w|
  {
    if w == "" {
      assert w + tail == tail;
    } else {
      assert (w + tail)[1..] == w[1..] + tail && (w + tail)[0] == w[0];
      WordLength(w[1..], tail);
    }
  }

  lemma WordFirst(gap: string, w: string, tail: string)
    requires Spaces(gap) && Word(w) && Separated(tail)
    ensures Tokens(gap + (w + tail)) == [w] + Tokens(tail)
  {
    SpacesSkipped(gap, w + tail);
    WordLength(w, tail);
    var s := w + tail;
    assert s[0] == w[0] && s[..|w|] == w && s[|w|..] == tail;
  }

  /** The severity of a body whose first two words are w1 and w2. */
  lemma TracingSeverity(gap1: string, w1: string, gap2: string, w2: string, tail: string)
    requires Spaces(gap1) && Word(w1) && gap2 != "" && Spaces(gap2) && Word(w2) && Separated(tail)
    ensures InferSeverity(gap1 + (w1 + (gap2 + (w2 + tail))))
         == if 'T' !in w1 || ':' !in w1 then None
            else if w2 == "ERROR" then Some(Error)
            else if w2 == "WARN" then Some(Warning)
            else if w2 == "INFO" then Some(Info)
            else if w2 in {"DEBUG", "TRACE"} then Some(Debug)
            else None
  {
    var rest := gap2 + (w2 + tail);
    assert rest[0] == gap2[0];
    hide Tokens;
    WordFirst(gap1, w1, rest);
    WordFirst(gap2, w2, tail);
  }

  /** With one word or none there is no severity. */
  lemma NoTracingSeverity(gap1: string, w: string, gap2: string)
    requires Spaces(gap1) && Spaces(gap2) && (w == "" || Word(w))
    ensures InferSeverity(gap1 + (w + gap2)) == None
  {
    SpacesSkipped(gap2, "");
    assert gap2 + "" == gap2;
    if w == "" {
      assert w + gap2 == gap2;
      SpacesSkipped(gap1, gap2);
    } else {
      WordFirst(gap1, w, gap2);
    }
  }

  // ---- lines without a PRI -----------------------------------------------------------------------

  /** A line that no format takes. */
  function Unrecognised(line: string): LogEntry
  {
    LogEntry(StripAnsi(line), InferSeverity(StripAnsi(line)), None, None, "syslog", map["source" := Str("syslog")])
  }

  ghost predicate IsDefault(line: string, timestamp: string, host: string, tag: string, gap: string, msg: string)
  {
    && ' ' !in timestamp && ' ' !in host && ' ' !in tag && Blank(gap) && msg != "" && !IsWhitespace(msg[0])
    && line == timestamp + ([' '] + (host + ([' '] + (tag + ([' '] + (gap + msg))))))
  }

  /** A timestamp that parses, a host, a tag and a message that is not blank. */
  lemma DefaultTaken(line: string, timestamp: string, host: string, tag: string, gap: string, msg: string,
                     iso: string -> Option<nat>)
    requires IsDefault(line, timestamp, host, tag, gap, msg) && iso(timestamp).Some? && line[0] != '<'
    ensures ParseLine(line, iso)
         == LogEntry(StripAnsi(msg), InferSeverity(StripAnsi(msg)), iso(timestamp), None, "syslog",
                     TagLabels(map["source" := Str("syslog"), "hostname" := Str(host)], tag))
  {
    FourParts(timestamp, host, tag, gap + msg);
    TrimmedStart(gap, msg);
    hide SplitN, TrimStart, TagLabels, StripAnsi, InferSeverity;
    assert BASE_LABELS["hostname" := Str(host)] == map["source" := Str("syslog"), "hostname" := Str(host)];
  }

  /** Any other line without a PRI is kept whole. */
  lemma OtherwiseKept(line: string, iso: string -> Option<nat>)
    requires line == "" || line[0] != '<'
    requires forall timestamp, host, tag, gap, msg :: IsDefault(line, timestamp, host, tag, gap, msg) ==> iso(timestamp) == None
    ensures ParseLine(line, iso) == Unrecognised(line)
  {
    NotDefault(line, iso);
    hide TryRsyslogDefault, StripAnsi, InferSeverity;
  }

  lemma NotDefault(line: string, iso: string -> Option<nat>)
    requires forall timestamp, host, tag, gap, msg :: IsDefault(line, timestamp, host, tag, gap, msg) ==> iso(timestamp) == None
    ensures TryRsyslogDefault(line, iso) == None
  {
    hide TryRsyslogDefault, IsDefault;
    if TryRsyslogDefault(line, iso).Some? {
      var timestamp, host, tag, gap, msg := DefaultParts(line, iso);
    }
  }

  lemma DefaultParts(line: string, iso: string -> Option<nat>)
    returns (timestamp: string, host: string, tag: string, gap: string, msg: string)
    requires TryRsyslogDefault(line, iso).Some?
    ensures IsDefault(line, timestamp, host, tag, gap, msg) && iso(timestamp).Some?
  {
    var parts := SplitN(line, 4);
    assert |parts| > 3 by { assert TrimStart("") == ""; }
    var rest := ThreeTaken(line);
    gap, msg := StartTrimmed(rest);
    timestamp, host, tag := parts[0], parts[1], parts[2];
    hide SplitN, TrimStart, TagLabels;
  }

  lemma ThreeTaken(line: string) returns (rest: string)
    requires |SplitN(line, 4)| > 3
    ensures var p := SplitN(line, 4);
      && ' ' !in p[0] && ' ' !in p[1] && ' ' !in p[2] && p[3] == rest
      && line == p[0] + ([' '] + (p[1] + ([' '] + (p[2] + ([' '] + rest)))))
  {
    var timestamp, s1 := FieldTaken(line, 4);
    var host, s2 := FieldTaken(s1, 3);
    var tag, s3 := FieldTaken(s2, 2);
    FourParts(timestamp, host, tag, s3);
    rest := s3;
    hide SplitN;
  }

  // ---- lines with a PRI that are not RFC 5424 ------------------------------------------------------

  lemma UnclosedIsKept(line: string, iso: string -> Option<nat>)
    requires line != "" && line[0] == '<' && '>' !in line
    ensures ParseLine(line, iso) == Unrecognised(line)
  {
    assert SplitPri(line) == None;
    hide SplitPri, StripAnsi, InferSeverity;
  }

  /** Any text after a PRI is read as RFC 3164, unless nothing is left for the message. */
  lemma LegacyTaken(pri: string, rest: string, iso: string -> Option<nat>)
    requires '>' !in pri && TryRfc5424("<" + (pri + (['>'] + rest)), iso) == None
    ensures var line := "<" + (pri + (['>'] + rest));
      ParseLine(line, iso)
        == if Body3164(rest) == "" then Unrecognised(line)
           else LogEntry(StripAnsi(Body3164(rest)), Some(ParsePriority(pri)), None, None, "syslog", Labels3164(rest))
  {
    PriStep(pri, rest);
    assert ("<" + (pri + (['>'] + rest)))[0] == '<';
    hide TryRfc5424, SplitPri, StripAnsi, InferSeverity, Body3164, Labels3164, ParsePriority;
  }

  /** The first ": ". */
  lemma {:induction false} FirstColonSpace(s: string, i: nat)
    ensures FindColonSpace(s) == Some(i)
       <==> i + 2 <= |s| && s[i] == ':' && s[i + 1] == ' ' && forall j :: 0 <= j < i ==> !ColonSpace(s, j)
  {
    if |s| >= 2 && !(s[0] == ':' && s[1] == ' ') {
      if i > 0 {
        FirstColonSpace(s[1..], i - 1);
        assert forall j :: 0 < j < i && i + 2 <= |s| ==> (ColonSpace(s, j) <==> ColonSpace(s[1..], j - 1));
        assert forall j :: 0 <= j < i - 1 && i + 2 <= |s| ==> (ColonSpace(s[1..], j) <==> ColonSpace(s, j + 1));
      }
    }
    assert i > 0 && |s| >= 2 && s[0] == ':' && s[1] == ' ' ==> ColonSpace(s, 0);
  }

  predicate ColonSpace(s: string, j: nat) { j + 2 <= |s| && s[j] == ':' && s[j + 1] == ' ' }

  lemma {:induction false} AfterSpacesIff(s: string, n: nat)
    ensures AfterSpaces(s, n) == None <==> Count(s, ' ') < n
    decreases |s|
  {
    if s == "" || n == 0 {
    } else {
      AfterSpacesOneChar(s, n);
      AfterSpacesIff(s[1..], if s[0] == ' ' then n - 1 else n);
    }
  }

  /** The body: from the fourth space on, or all of it when there are fewer; and of that what
      follows the first ": ", if there is one. */
  lemma BodyMeans(rest: string, before: string, text: string, lead: string, body: string)
    requires || (Count(rest, ' ') < 4 && text == rest)
             || (rest == before + ([' '] + text) && Count(before, ' ') == 3)
    requires || (text == body && forall j :: 0 <= j <= |text| ==> !ColonSpace(text, j))
             || (text == lead + (": " + body) && forall j :: 0 <= j < |lead| ==> !ColonSpace(text, j))
    ensures Body3164(rest) == body
  {
    TextMeans(rest, before, text);
    ColonCut(text, lead, body);
    hide FindColonSpace, TagAndMessage;
  }

  lemma TextMeans(rest: string, before: string, text: string)
    requires || (Count(rest, ' ') < 4 && text == rest)
             || (rest == before + ([' '] + text) && Count(before, ' ') == 3)
    ensures TagAndMessage(rest) == text
  {
    AfterSpacesIff(rest, 4);
    hide AfterSpaces;
    if rest == before + ([' '] + text) && Count(before, ' ') == 3 {
      FourthSpace(before, text, 3);
    }
  }

  lemma ColonCut(text: string, lead: string, body: string)
    requires || (text == body && forall j :: 0 <= j <= |text| ==> !ColonSpace(text, j))
             || (text == lead + (": " + body) && forall j :: 0 <= j < |lead| ==> !ColonSpace(text, j))
    ensures match FindColonSpace(text) case Some(i) => text[i + 2..] == body case None => text == body
  {
    hide FindColonSpace;
    if text == lead + (": " + body) && forall j :: 0 <= j < |lead| ==> !ColonSpace(text, j) {
      assert text[|lead|] == ':' && text[|lead| + 1] == ' ' && text[|lead| + 2..] == body;
      FirstColonSpace(text, |lead|);
    } else {
      FoundColonSpace(text);
    }
  }

  lemma FoundColonSpace(text: string)
    ensures FindColonSpace(text).Some? ==> ColonSpace(text, FindColonSpace(text).value)
  {
    if FindColonSpace(text).Some? {
      FirstColonSpace(text, FindColonSpace(text).value);
      hide FindColonSpace;
    }
  }

  lemma {:induction false} FourthSpace(before: string, text: string, n: nat)
    requires Count(before, ' ') == n
    ensures AfterSpaces(before + ([' '] + text), n + 1) == Some(text)
    decreases |before|
  {
    var s := before + ([' '] + text);
    AfterSpacesOneChar(s, n + 1);
    if before == "" {
      assert s == [' '] + text && s[1..] == text;
      AfterSpacesEnds(text, 0);
    } else {
      assert s[1..] == before[1..] + ([' '] + text) && s[0] == before[0];
      FourthSpace(before[1..], text, if before[0] == ' ' then n - 1 else n);
    }
    hide AfterSpaces;
  }

  /** A host is the fourth word and a tag the fifth, when there are that many. */
  lemma FewWords(rest: string)
    ensures Labels3164(rest)
         == if |Tokens(rest)| < 4 then map["source" := Str("syslog")]
            else if |Tokens(rest)| == 4 then map["source" := Str("syslog"), "hostname" := Str(Tokens(rest)[3])]
            else TagLabels(map["source" := Str("syslog"), "hostname" := Str(Tokens(rest)[3])], Tokens(rest)[4])
  {
    hide Tokens, TagLabels;
    if |Tokens(rest)| > 3 {
      assert BASE_LABELS["hostname" := Str(Tokens(rest)[3])] == map["source" := Str("syslog"), "hostname" := Str(Tokens(rest)[3])];
    }
  }
}
