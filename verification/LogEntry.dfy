/** Log entries as they flow through the daemon (src/log_entry.rs). */
module LogEntries {
  import opened Prelude

  datatype Severity = Debug | Info | Warning | Error | Critical

  datatype LabelValue = Str(s: string) | Int(i: int)

  datatype LogEntry = LogEntry(
    body: string,
    severity: Option<Severity>,
    timestampMs: Option<nat>,
    uptimeMs: Option<nat>,
    source: string,
    labels: map<string, LabelValue>)

  /** The chunk file format: any encoder of entry lists together with a decoder
      that undoes it. What other byte strings decode to is left open. */
  datatype Codec = Codec(encode: seq<LogEntry> -> seq<Byte>, decode: seq<Byte> -> Option<seq<LogEntry>>)
  {
    ghost predicate Lawful() {
      forall es :: decode(encode(es)) == Some(es)
    }
  }
}
