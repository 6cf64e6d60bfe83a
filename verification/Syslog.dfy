/** Syslog lines (src/sources/syslog.rs:102-340): RFC 5424 (section 6), RFC 3164
    (section 4.1), rsyslog's default file format, and the fallback. RFC 3339
    timestamps are parsed by a parameter. */
module Syslog {
  import opened Prelude
  import opened Decimal
  import opened LogEntries
  import opened Ansi

  // ---- string primitives -----------------------------------------------------------------

  /** `char::is_whitespace`. */
  predicate IsWhitespace(c: char)
  {
    '\t' <= c <= '\r' || c == ' ' || c == '\U{85}' || c == '\U{a0}' || c == '\U{1680}'
    || '\U{2000}' <= c <= '\U{200a}' || c == '\U{2028}' || c == '\U{2029}' || c == '\U{202f}'
    || c == '\U{205f}' || c == '\U{3000}'
  }

  /** `char::is_ascii_whitespace`: no vertical tab. */
  predicate IsAsciiSpace(c: char) { c == ' ' || c == '\t' || c == '\n' || c == '\U{c}' || c == '\r' }

  /** `str::find` of a character. */
  function Find(s: string, c: char): (r: Option<nat>)
    ensures r.Some? ==> r.value < |s| && s[r.value] == c && c !in s[..r.value]
    ensures r.None? ==> c !in s
  {
    if s == "" then None
    else if s[0] == c then Some(0)
    else match Find(s[1..], c)
      case None => None
      case Some(i) =>
        assert s[..i + 1] == [s[0]] + s[1..][..i];
        Some(i + 1)
  }

  /** `s.find(": ")`. */
  function FindColonSpace(s: string): (r: Option<nat>)
    ensures r.Some? ==> r.value + 2 <= |s|
  {
    if |s| < 2 then None
    else if s[0] == ':' && s[1] == ' ' then Some(0)
    else match FindColonSpace(s[1..])
      case None => None
      case Some(i) => Some(i + 1)
  }

  /** `s.splitn(n, ' ')`. */
  function SplitN(s: string, n: nat): seq<string>
    requires n > 0
    decreases n
  {
    match Find(s, ' ')
    case Some(i) => if n == 1 then [s] else [s[..i]] + SplitN(s[i + 1..], n - 1)
    case None => [s]
  }

  function TrimStart(s: string): string
    decreases |s|
  {
    if s != "" && IsWhitespace(s[0]) then TrimStart(s[1..]) else s
  }

  function TrimStartChar(s: string, c: char): string
    decreases |s|
  {
    if s != "" && s[0] == c then TrimStartChar(s[1..], c) else s
  }

  function TrimEndChar(s: string, c: char): string
    decreases |s|
  {
    if s != "" && s[|s| - 1] == c then TrimEndChar(s[..|s| - 1], c) else s
  }

  function TokenLength(s: string): (n: nat)
    ensures n <= |s| && (s != "" && !IsAsciiSpace(s[0]) ==> n > 0)
  {
    if s == "" || IsAsciiSpace(s[0]) then 0 else 1 + TokenLength(s[1..])
  }

  /** `s.split_ascii_whitespace()`. */
  function Tokens(s: string): seq<string>
    decreases |s|
  {
    if s == "" then []
    else if IsAsciiSpace(s[0]) then Tokens(s[1..])
    else [s[..TokenLength(s)]] + Tokens(s[TokenLength(s)..])
  }

  /** What follows the n-th space, if there are that many. */
  function AfterSpaces(s: string, n: nat): Option<string>
    decreases n
  {
    if n == 0 then Some(s)
    else match Find(s, ' ')
      case None => None
      case Some(i) => AfterSpaces(s[i + 1..], n - 1)
  }

  /** `str::parse::<i64>`. */
  function ParseI64(s: string): Option<int>
  {
    var bound := 0x8000_0000_0000_0000;
    if s != "" && s[0] == '-' then
      var d := s[1..];
      if d == "" || !AllDigits(d) then None
      else
        var v: int := Value(d);
        if v > bound then None else Some(-v)
    else
      match ParseUnsigned(s, bound)
      case None => None
      case Some(n) => Some(n)
  }

  // ---- the parsers ------------------------------------------------------------------------

  const BOM: char := '\U{feff}'

  /** `Severity::from_syslog_priority`. */
  function SeverityOf(priority: nat): Severity
  {
    var code := priority % 8;
    if code <= 2 then Critical else if code == 3 then Error else if code == 4 then Warning
    else if code <= 6 then Info else Debug
  }

  /** `parse_priority`: 13 when the text is not a byte. */
  function ParsePriority(pri: string): Severity
  {
    match ParseUnsigned(pri, 0x100)
    case Some(n) => SeverityOf(n)
    case None => SeverityOf(13)
  }

  const BASE_LABELS: map<string, LabelValue> := map["source" := Str("syslog")]

  function AddStr(labels: map<string, LabelValue>, key: string, value: string, present: bool): map<string, LabelValue>
  {
    if present then labels[key := Str(value)] else labels
  }

  function AddPid(labels: map<string, LabelValue>, pid: Option<int>): map<string, LabelValue>
  {
    match pid
    case Some(p) => labels["pid" := Int(p)]
    case None => labels
  }

  function Entry(body: string, severity: Option<Severity>, ts: Option<nat>, labels: map<string, LabelValue>): LogEntry
  {
    LogEntry(body, severity, ts, None, "syslog", labels)
  }

  /** `<PRI>` and what follows it. */
  function SplitPri(line: string): Option<(string, string)>
  {
    if line == "" || line[0] != '<' then None
    else match Find(line, '>')
      case None => None
      case Some(end) => Some((line[1..end], line[end + 1..]))
  }

  function TryRfc5424(line: string, iso: string -> Option<nat>): Option<LogEntry>
  {
    match SplitPri(line)
    case None => None
    case Some((pri, rest)) =>
      if rest == "" || rest[0] != '1' then None
      else
        var parts := SplitN(TrimStart(rest[1..]), 7);
        if |parts| < 7 then None else Some(Entry5424(pri, parts, iso))
  }

  /** parts: timestamp, host, application, process id, message id, data, message. */
  function Entry5424(pri: string, parts: seq<string>, iso: string -> Option<nat>): LogEntry
    requires |parts| >= 7
  {
    var labels := AddStr(BASE_LABELS, "hostname", parts[1], parts[1] != "-");
    var labels' := AddStr(labels, "process", parts[2], parts[2] != "-");
    Entry(TrimStartChar(parts[6], BOM), Some(ParsePriority(pri)), iso(parts[0]), AddPid(labels', ParseI64(parts[3])))
  }

  /** `parse_tag`: "name[123]" into name and pid. */
  function ParseTag(tag: string): (string, Option<int>)
  {
    match Find(tag, '[')
    case Some(i) => (tag[..i], ParseI64(TrimEndChar(tag[i + 1..], ']')))
    case None => (tag, None)
  }

  function TagLabels(labels: map<string, LabelValue>, tag: string): map<string, LabelValue>
  {
    var (process, pid) := ParseTag(TrimEndChar(tag, ':'));
    AddPid(AddStr(labels, "process", process, process != ""), pid)
  }

  /** The text from the fourth space on; all of it when there are fewer. */
  function TagAndMessage(rest: string): string
  {
    match AfterSpaces(rest, 4)
    case Some(s) => s
    case None => rest
  }

  /** Fourth token as host, fifth as tag. */
  function Labels3164(rest: string): map<string, LabelValue>
  {
    var tokens := Tokens(rest);
    var labels := if |tokens| > 3 then BASE_LABELS["hostname" := Str(tokens[3])] else BASE_LABELS;
    if |tokens| > 4 then TagLabels(labels, tokens[4]) else labels
  }

  /** What follows the first ": " of the tag and message. */
  function Body3164(rest: string): string
  {
    var s := TagAndMessage(rest);
    match FindColonSpace(s)
    case Some(i) => s[i + 2..]
    case None => s
  }

  function TryRfc3164(line: string): Option<LogEntry>
  {
    match SplitPri(line)
    case None => None
    case Some((pri, rest)) =>
      if Body3164(rest) == "" then None
      else Some(Entry(Body3164(rest), Some(ParsePriority(pri)), None, Labels3164(rest)))
  }

  function TryRsyslogDefault(line: string, iso: string -> Option<nat>): Option<LogEntry>
  {
    if line != "" && line[0] == '<' then None
    else
      var parts := SplitN(line, 4);
      if |parts| < 3 then None
      else
        var message := TrimStart(if |parts| > 3 then parts[3] else "");
        match iso(parts[0])
        case None => None
        case Some(ts) =>
          if message == "" then None
          else Some(Entry(message, None, Some(ts), TagLabels(BASE_LABELS["hostname" := Str(parts[1])], parts[2])))
  }

  /** `infer_tracing_severity`. */
  function InferSeverity(body: string): Option<Severity>
  {
    var tokens := Tokens(body);
    if |tokens| < 2 || 'T' !in tokens[0] || ':' !in tokens[0] then None
    else if tokens[1] == "ERROR" then Some(Error)
    else if tokens[1] == "WARN" then Some(Warning)
    else if tokens[1] == "INFO" then Some(Info)
    else if tokens[1] == "DEBUG" || tokens[1] == "TRACE" then Some(Debug)
    else None
  }

  function Recognise(line: string, iso: string -> Option<nat>): LogEntry
  {
    match TryRfc5424(line, iso)
    case Some(e) => e
    case None =>
      match TryRfc3164(line)
      case Some(e) => e
      case None =>
        match TryRsyslogDefault(line, iso)
        case Some(e) => e
        case None => Entry(line, None, None, BASE_LABELS)
  }

  function ParseLine(line: string, iso: string -> Option<nat>): LogEntry
  {
    var e := Recognise(line, iso);
    var body := StripAnsi(e.body);
    e.(body := body, severity := if e.severity.None? then InferSeverity(body) else e.severity)
  }

  // ---- the imperative parts ------------------------------------------------------------------

  lemma AfterSpacesOneChar(s: string, n: nat)
    requires s != "" && n > 0
    ensures AfterSpaces(s, n) == AfterSpaces(s[1..], if s[0] == ' ' then n - 1 else n)
  {
    match Find(s[1..], ' ')
    case Some(i) => assert s[1..][i + 1..] == s[i + 2..];
    case None =>
  }

  lemma AfterSpacesEnds(s: string, n: nat)
    ensures AfterSpaces(s, 0) == Some(s) && (n > 0 ==> AfterSpaces("", n) == None)
  {
  }

  /** The scan for the message in `try_rfc3164`: spaces are counted up to the fourth. */
  method MessageStart(rest: string) returns (start: nat)
    ensures start <= |rest| && rest[start..] == TagAndMessage(rest)
  {
    hide AfterSpaces;
    var spaces, i := 0, 0;
    assert rest[0..] == rest;
    while i < |rest|
      invariant 0 <= i <= |rest| && spaces < 4
      invariant AfterSpaces(rest[i..], 4 - spaces) == AfterSpaces(rest, 4)
    {
      AfterSpacesOneChar(rest[i..], 4 - spaces);
      assert rest[i..][1..] == rest[i + 1..];
      if rest[i] == ' ' {
        spaces := spaces + 1;
      }
      i := i + 1;
      if spaces == 4 {
        AfterSpacesEnds(rest[i..], 0);
        return i;
      }
    }
    AfterSpacesEnds(rest, 4 - spaces);
    assert rest[i..] == "";
    start := 0;
  }

  /** `parse_line`: the recognised entry's body and severity are overwritten. */
  method Parse(line: string, iso: string -> Option<nat>) returns (entry: LogEntry)
    ensures entry == ParseLine(line, iso)
  {
    entry := Recognise(line, iso);
    var body := Strip(entry.body);
    entry := entry.(body := body);
    if entry.severity.None? {
      entry := entry.(severity := InferSeverity(entry.body));
    }
  }
}
