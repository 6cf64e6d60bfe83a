/** Windowed aggregation with per-stream sequence numbers
    (src/metrics/aggregator.rs:26-200). Reals stand for f64; `Instant` readings are
    parameters. */
module Aggregation {
  import opened Prelude
  import opened StreamKey

  /** MAX_STREAMS. */
  const MAX_STREAMS: nat := 10_000

  const AGG_NONE: nat := 0

  datatype Sample = Sample(name: string, value: real, labels: seq<Label>, counter: bool, raw: bool)

  /** `ReadyMetric`. */
  datatype Reading = Reading(name: string, agg: nat, labels: seq<Label>, sum: real,
                             count: Option<nat>, min: Option<real>, max: Option<real>, seqNo: nat, uptimeMs: nat)

  datatype Config = Config(agg: nat, duration: Option<nat>)

  datatype StreamState = StreamState(name: string, labels: seq<Label>, sum: real, count: nat, min: real, max: real,
                                     start: nat, uptimeMs: nat)
  {
    function Update(v: real, uptimeMs: nat): StreamState
    {
      this.(sum := sum + v, count := count + 1,
            min := if v < min then v else min,
            max := if v > max then v else max,
            uptimeMs := uptimeMs)
    }

    predicate Expired(duration: nat, now: nat) { now >= start + duration }
  }

  function NewStream(s: Sample, t: nat, uptimeMs: nat): StreamState
  {
    StreamState(s.name, s.labels, s.value, 1, s.value, s.value, t, uptimeMs)
  }

  // ---- the steps of one ingest ----------------------------------------------------------------

  datatype Agg = Agg(states: map<string, StreamState>, seqs: map<string, nat>)

  function SeqOf(seqs: map<string, nat>, key: string): nat { if key in seqs then seqs[key] else 0 }

  /** `next_seq`. */
  function Bump(a: Agg, key: string): Agg { a.(seqs := a.seqs[key := SeqOf(a.seqs, key) + 1]) }

  /** One sample, one window flush, or the direct `uptime_ms` reading. */
  datatype Micro =
    | Take(s: Sample, t: nat, uptimeMs: nat)
    | Flush(key: string)
    | Uptime(uptimeMs: nat)

  predicate Enabled(a: Agg, m: Micro) { m.Flush? ==> m.key in a.states }

  predicate Immediate(cfg: Config, s: Sample) { cfg.duration.None? || s.counter || s.raw }

  function WindowReading(cfg: Config, st: StreamState, seqNo: nat): Reading
  {
    Reading(st.name, cfg.agg, st.labels, st.sum, Some(st.count), Some(st.min), Some(st.max), seqNo, st.uptimeMs)
  }

  function Step(cfg: Config, a: Agg, m: Micro): (Agg, seq<Reading>)
    requires Enabled(a, m)
  {
    match m
    case Take(s, t, uptimeMs) =>
      var key := KeyOf(s.name, s.labels);
      if Immediate(cfg, s) then
        (Bump(a, key),
         [Reading(s.name, AGG_NONE, s.labels, s.value, None, None, None, SeqOf(a.seqs, key) + 1, uptimeMs)])
      else if key in a.states then (a.(states := a.states[key := a.states[key].Update(s.value, uptimeMs)]), [])
      else if |a.states| < MAX_STREAMS then (a.(states := a.states[key := NewStream(s, t, uptimeMs)]), [])
      else (a, [])
    case Flush(key) =>
      (Bump(a.(states := a.states - {key}), key), [WindowReading(cfg, a.states[key], SeqOf(a.seqs, key) + 1)])
    case Uptime(uptimeMs) =>
      (Bump(a, "uptime_ms"),
       [Reading("uptime_ms", AGG_NONE, [], uptimeMs as real, None, None, None,
                SeqOf(a.seqs, "uptime_ms") + 1, uptimeMs)])
  }

  predicate IsLog(cfg: Config, a: Agg, log: seq<Micro>)
    decreases |log|
  {
    log == [] || (Enabled(a, log[0]) && IsLog(cfg, Step(cfg, a, log[0]).0, log[1..]))
  }

  function Run(cfg: Config, a: Agg, log: seq<Micro>): (Agg, seq<Reading>)
    requires IsLog(cfg, a, log)
    decreases |log|
  {
    if log == [] then (a, [])
    else
      var (b, first) := Step(cfg, a, log[0]);
      var (c, rest) := Run(cfg, b, log[1..]);
      (c, first + rest)
  }

  lemma {:induction false} RunAppend(cfg: Config, a: Agg, log: seq<Micro>, m: Micro)
    requires IsLog(cfg, a, log) && Enabled(Run(cfg, a, log).0, m)
    ensures IsLog(cfg, a, log + [m])
    ensures var (b, out) := Run(cfg, a, log); Run(cfg, a, log + [m]) == (Step(cfg, b, m).0, out + Step(cfg, b, m).1)
    decreases |log|
  {
    hide Step;
    if log == [] {
      assert [m][1..] == [] && log + [m] == [m];
      assert Run(cfg, a, [m]).1 == Step(cfg, a, m).1 + [] == [] + Step(cfg, a, m).1;
    } else {
      var (b, first) := Step(cfg, a, log[0]);
      RunAppend(cfg, b, log[1..], m);
      assert (log + [m])[1..] == log[1..] + [m];
      var (c, rest) := Run(cfg, b, log[1..]);
      assert first + (rest + Step(cfg, c, m).1) == (first + rest) + Step(cfg, c, m).1;
    }
  }

  // ---- the reference: windows as lists of observations -------------------------------------------

  datatype Observation = Observation(s: Sample, t: nat, uptimeMs: nat)

  type Windows = map<string, seq<Observation>>

  predicate Accepts(cfg: Config, w: Windows, s: Sample)
  {
    !Immediate(cfg, s) && (KeyOf(s.name, s.labels) in w || |w| < MAX_STREAMS)
  }

  function Window(w: Windows, key: string): seq<Observation> { if key in w then w[key] else [] }

  function RefStep(cfg: Config, w: Windows, m: Micro): Windows
  {
    match m
    case Take(s, t, uptimeMs) =>
      var key := KeyOf(s.name, s.labels);
      if Accepts(cfg, w, s) then w[key := Window(w, key) + [Observation(s, t, uptimeMs)]] else w
    case Flush(key) => w - {key}
    case Uptime(_) => w
  }

  function Sum(os: seq<Observation>): real
  {
    if os == [] then 0.0 else Sum(os[..|os| - 1]) + os[|os| - 1].s.value
  }

  function Least(os: seq<Observation>): (m: real)
    requires os != []
    ensures forall o :: o in os ==> m <= o.s.value
    ensures exists o :: o in os && o.s.value == m
  {
    var last := os[|os| - 1].s.value;
    if |os| == 1 then last
    else
      var m := Least(os[..|os| - 1]);
      assert forall o :: o in os ==> o == os[|os| - 1] || o in os[..|os| - 1];
      if last < m then last else m
  }

  function Greatest(os: seq<Observation>): (m: real)
    requires os != []
    ensures forall o :: o in os ==> o.s.value <= m
    ensures exists o :: o in os && o.s.value == m
  {
    var last := os[|os| - 1].s.value;
    if |os| == 1 then last
    else
      var m := Greatest(os[..|os| - 1]);
      assert forall o :: o in os ==> o == os[|os| - 1] || o in os[..|os| - 1];
      if last > m then last else m
  }

  /** What a stream state must be for the observations of its window. */
  function Summary(os: seq<Observation>): StreamState
    requires os != []
  {
    StreamState(os[0].s.name, os[0].s.labels, Sum(os), |os|, Least(os), Greatest(os), os[0].t, os[|os| - 1].uptimeMs)
  }

  lemma SummaryExtends(os: seq<Observation>, o: Observation)
    requires os != []
    ensures Summary(os + [o]) == Summary(os).Update(o.s.value, o.uptimeMs)
  {
    assert (os + [o])[..|os|] == os;
  }

  lemma SummarySingle(o: Observation)
    ensures Summary([o]) == NewStream(o.s, o.t, o.uptimeMs)
  {
    assert Sum([]) == 0.0 && [o][..0] == [];
  }

  function Times(n: nat, x: real): real { n as real * x }

  /** count * min <= sum <= count * max. */
  lemma SummaryBounds(os: seq<Observation>)
    requires os != []
    ensures Times(|os|, Least(os)) <= Sum(os) <= Times(|os|, Greatest(os))
  {
    var lo, hi := Least(os), Greatest(os);
    assert forall o :: o in os ==> lo <= o.s.value <= hi;
    hide *;
    MeanBounds(os, lo, hi);
  }

  lemma {:induction false} MeanBounds(os: seq<Observation>, lo: real, hi: real)
    requires forall o :: o in os ==> lo <= o.s.value <= hi
    ensures Times(|os|, lo) <= Sum(os) <= Times(|os|, hi)
  {
    if os != [] {
      var n := |os| - 1;
      MeanBounds(os[..n], lo, hi);
      assert os[n] in os;
      assert Times(|os|, lo) == Times(n, lo) + lo && Times(|os|, hi) == Times(n, hi) + hi;
    }
  }

  ghost predicate OwnKey(os: seq<Observation>, key: string)
  {
    forall o :: o in os ==> KeyOf(o.s.name, o.s.labels) == key
  }

  /** The aggregator holds exactly the summaries of the reference's windows. */
  ghost predicate Summarises(a: Agg, w: Windows)
  {
    && a.states.Keys == w.Keys
    && (forall k :: k in w ==> w[k] != [] && OwnKey(w[k], k) && a.states[k] == Summary(w[k]))
    && |w| <= MAX_STREAMS
  }

  lemma PutSummarises(a: Agg, w: Windows, key: string, st: StreamState, os: seq<Observation>)
    requires Summarises(a, w) && os != [] && OwnKey(os, key) && st == Summary(os)
    requires key in w || |w| < MAX_STREAMS
    ensures Summarises(a.(states := a.states[key := st]), w[key := os])
  {
    hide OwnKey, Summary;
    assert w[key := os].Keys == w.Keys + {key};
    assert |w[key := os]| <= MAX_STREAMS by {
      assert key in w ==> w.Keys + {key} == w.Keys;
      assert |w[key := os]| == |w[key := os].Keys| && |w| == |w.Keys|;
    }
  }

  lemma TakeSummarises(a: Agg, w: Windows, key: string, o: Observation)
    requires Summarises(a, w) && KeyOf(o.s.name, o.s.labels) == key
    requires key in w || |w| < MAX_STREAMS
    ensures var st := if key in w then a.states[key].Update(o.s.value, o.uptimeMs) else NewStream(o.s, o.t, o.uptimeMs);
      Summarises(a.(states := a.states[key := st]), w[key := Window(w, key) + [o]])
  {
    hide KeyOf, Summary;
    if key in w {
      SummaryExtends(w[key], o);
      PutSummarises(a, w, key, a.states[key].Update(o.s.value, o.uptimeMs), w[key] + [o]);
    } else {
      SummarySingle(o);
      assert [] + [o] == [o];
      PutSummarises(a, w, key, NewStream(o.s, o.t, o.uptimeMs), [o]);
    }
  }

  lemma FlushSummarises(a: Agg, w: Windows, key: string)
    requires Summarises(a, w) && key in w
    ensures Summarises(a.(states := a.states - {key}), w - {key})
  {
    hide KeyOf, Summary;
    assert (w - {key}).Keys == w.Keys - {key};
  }

  lemma StepSummarises(cfg: Config, a: Agg, w: Windows, m: Micro)
    requires Summarises(a, w) && Enabled(a, m)
    ensures Summarises(Step(cfg, a, m).0, RefStep(cfg, w, m))
  {
    hide KeyOf, Summary;
    assert |a.states| == |a.states.Keys| == |w.Keys| == |w|;
    match m
    case Take(s, t, uptimeMs) =>
      var key := KeyOf(s.name, s.labels);
      if Accepts(cfg, w, s) {
        TakeSummarises(a, w, key, Observation(s, t, uptimeMs));
      }
      SeqsDoNotMatter(a, w, Bump(a, key).seqs);
      hide Summarises;
    case Flush(key) =>
      FlushSummarises(a, w, key);
      SeqsDoNotMatter(a.(states := a.states - {key}), w - {key}, Bump(a, key).seqs);
      hide Summarises;
    case Uptime(_) =>
      SeqsDoNotMatter(a, w, Bump(a, "uptime_ms").seqs);
      hide Summarises;
  }

  lemma SeqsDoNotMatter(a: Agg, w: Windows, seqs: map<string, nat>)
    requires Summarises(a, w)
    ensures Summarises(a.(seqs := seqs), w)
  {
  }

  // ---- whole runs --------------------------------------------------------------------------------------

  datatype Closed = Closed(key: string, window: seq<Observation>)

  /** The reference run: the windows left open, and those flushed, in order. */
  function RefRun(cfg: Config, w: Windows, log: seq<Micro>): (Windows, seq<Closed>)
    decreases |log|
  {
    if log == [] then (w, [])
    else
      var (open, closed) := RefRun(cfg, RefStep(cfg, w, log[0]), log[1..]);
      (open, (if log[0].Flush? then [Closed(log[0].key, Window(w, log[0].key))] else []) + closed)
  }

  /** The emitted readings that close a window, in order. */
  function Aggregated(readings: seq<Reading>): seq<Reading>
  {
    if readings == [] then []
    else (if readings[0].count.Some? then [readings[0]] else []) + Aggregated(readings[1..])
  }

  /** A reading that holds exactly a window's sum, count, minimum and maximum. */
  ghost predicate Reports(cfg: Config, r: Reading, c: Closed)
  {
    && c.window != [] && OwnKey(c.window, c.key) && KeyOf(r.name, r.labels) == c.key
    && r.name == c.window[0].s.name && r.labels == c.window[0].s.labels
    && r.agg == cfg.agg && r.sum == Sum(c.window) && r.count == Some(|c.window|)
    && r.min == Some(Least(c.window)) && r.max == Some(Greatest(c.window))
    && r.uptimeMs == c.window[|c.window| - 1].uptimeMs
  }

  ghost predicate ReportsAll(cfg: Config, rs: seq<Reading>, cs: seq<Closed>)
  {
    |rs| == |cs| && forall i :: 0 <= i < |rs| ==> Reports(cfg, rs[i], cs[i])
  }

  lemma {:induction false} AggregatedConcat(a: seq<Reading>, b: seq<Reading>)
    ensures Aggregated(a + b) == Aggregated(a) + Aggregated(b)
  {
    if a == [] {
      assert a + b == b;
      assert Aggregated(a) == [];
    } else {
      AggregatedHead(a);
      AggregatedHead(a + b);
      assert (a + b)[1..] == a[1..] + b;
      AggregatedConcat(a[1..], b);
      hide Aggregated;
      ConcatAssoc(if a[0].count.Some? then [a[0]] else [], Aggregated(a[1..]), Aggregated(b));
    }
  }

  lemma AggregatedHead(rs: seq<Reading>)
    requires rs != []
    ensures Aggregated(rs) == (if rs[0].count.Some? then [rs[0]] else []) + Aggregated(rs[1..])
  {
  }

  lemma SummaryReports(cfg: Config, os: seq<Observation>, key: string, seqNo: nat)
    requires os != [] && OwnKey(os, key)
    ensures Reports(cfg, WindowReading(cfg, Summary(os), seqNo), Closed(key, os))
  {
    hide KeyOf, Sum, Least, Greatest;
    assert os[0] in os;
  }

  lemma WindowReadingCounts(cfg: Config, st: StreamState, seqNo: nat)
    ensures Aggregated([WindowReading(cfg, st, seqNo)]) == [WindowReading(cfg, st, seqNo)]
  {
  }

  lemma StepReports(cfg: Config, a: Agg, w: Windows, m: Micro)
    requires Summarises(a, w) && Enabled(a, m)
    ensures ReportsAll(cfg, Aggregated(Step(cfg, a, m).1), if m.Flush? then [Closed(m.key, Window(w, m.key))] else [])
  {
    hide KeyOf, Reports, OwnKey, Summary, WindowReading;
    if m.Flush? {
      SummaryReports(cfg, w[m.key], m.key, SeqOf(a.seqs, m.key) + 1);
      WindowReadingCounts(cfg, a.states[m.key], SeqOf(a.seqs, m.key) + 1);
    }
  }

  /** The aggregator refines the reference over whole runs: its states are the
      summaries of the open windows, its windowed readings are exactly those of the
      closed windows in order, and at most 10000 streams are ever open. */
  lemma {:induction false} RunRefines(cfg: Config, a: Agg, w: Windows, log: seq<Micro>)
    requires Summarises(a, w) && IsLog(cfg, a, log)
    ensures Summarises(Run(cfg, a, log).0, RefRun(cfg, w, log).0)
    ensures ReportsAll(cfg, Aggregated(Run(cfg, a, log).1), RefRun(cfg, w, log).1)
    decreases |log|
  {
    hide Step, RefStep, Summarises, Enabled, Reports, Window;
    if log != [] {
      var (b, first) := Step(cfg, a, log[0]);
      StepSummarises(cfg, a, w, log[0]);
      StepReports(cfg, a, w, log[0]);
      RunRefines(cfg, b, RefStep(cfg, w, log[0]), log[1..]);
      AggregatedConcat(first, Run(cfg, b, log[1..]).1);
    }
  }

  /** The observations of one stream that a run accepts into windows. */
  function Accepted(cfg: Config, w: Windows, log: seq<Micro>, key: string): seq<Observation>
    decreases |log|
  {
    if log == [] then []
    else
      (if log[0].Take? && Accepts(cfg, w, log[0].s) && KeyOf(log[0].s.name, log[0].s.labels) == key
       then [Observation(log[0].s, log[0].t, log[0].uptimeMs)] else [])
      + Accepted(cfg, RefStep(cfg, w, log[0]), log[1..], key)
  }

  function ClosedFor(closed: seq<Closed>, key: string): seq<seq<Observation>>
  {
    if closed == [] then []
    else (if closed[0].key == key then [closed[0].window] else []) + ClosedFor(closed[1..], key)
  }

  /** Every accepted sample of a stream is in exactly one closed window or in the open
      one, in order. */
  lemma {:induction false} WindowsPartition(cfg: Config, w: Windows, log: seq<Micro>, key: string)
    ensures var (open, closed) := RefRun(cfg, w, log);
      Flatten(ClosedFor(closed, key)) + Window(open, key) == Window(w, key) + Accepted(cfg, w, log, key)
    decreases |log|
  {
    if log != [] {
      WindowsPartition(cfg, RefStep(cfg, w, log[0]), log[1..], key);
      PartitionStep(cfg, w, log, key);
    }
  }

  lemma CloseOne(c: seq<Closed>, closed: seq<Closed>, key: string)
    requires |c| <= 1
    ensures Flatten(ClosedFor(c + closed, key))
         == (if c != [] && c[0].key == key then c[0].window else []) + Flatten(ClosedFor(closed, key))
  {
    var rest := ClosedFor(closed, key);
    assert [] + rest == rest && [] + Flatten(rest) == Flatten(rest);
    if c == [] {
      assert c + closed == closed;
    } else {
      assert (c + closed)[1..] == closed;
      assert ([c[0].window] + rest)[1..] == rest;
    }
  }

  lemma Glue<T>(c: seq<T>, x: seq<T>, y: seq<T>, w0: seq<T>, w1: seq<T>, o: seq<T>, r: seq<T>)
    requires x + y == w1 + r && c + w1 == w0 + o
    ensures (c + x) + y == w0 + (o + r)
  {
    assert (c + x) + y == c + (x + y) == (c + w1) + r;
  }

  /** What a step does to one stream's window. */
  lemma WindowStep(cfg: Config, w: Windows, m: Micro, key: string)
    ensures Window(RefStep(cfg, w, m), key)
         == if m.Flush? && m.key == key then []
            else if m.Take? && Accepts(cfg, w, m.s) && KeyOf(m.s.name, m.s.labels) == key
              then Window(w, key) + [Observation(m.s, m.t, m.uptimeMs)]
            else Window(w, key)
  {
    hide KeyOf;
  }

  lemma PartitionStep(cfg: Config, w: Windows, log: seq<Micro>, key: string)
    requires log != []
    requires var (open, closed) := RefRun(cfg, RefStep(cfg, w, log[0]), log[1..]);
      Flatten(ClosedFor(closed, key)) + Window(open, key)
      == Window(RefStep(cfg, w, log[0]), key) + Accepted(cfg, RefStep(cfg, w, log[0]), log[1..], key)
    ensures var (open, closed) := RefRun(cfg, w, log);
      Flatten(ClosedFor(closed, key)) + Window(open, key) == Window(w, key) + Accepted(cfg, w, log, key)
  {
    var m, w' := log[0], RefStep(cfg, w, log[0]);
    var (open, closed) := RefRun(cfg, w', log[1..]);
    WindowStep(cfg, w, m, key);
    var c := if m.Flush? then [Closed(m.key, Window(w, m.key))] else [];
    CloseOne(c, closed, key);
    var o := if m.Take? && Accepts(cfg, w, m.s) && KeyOf(m.s.name, m.s.labels) == key
             then [Observation(m.s, m.t, m.uptimeMs)] else [];
    var own := if c != [] && c[0].key == key then c[0].window else [];
    var rest := Accepted(cfg, w', log[1..], key);
    assert Accepted(cfg, w, log, key) == o + rest && RefRun(cfg, w, log) == (open, c + closed);
    hide *;
    assert own + Window(w', key) == Window(w, key) + o;
    Glue(own, Flatten(ClosedFor(closed, key)), Window(open, key), Window(w, key), Window(w', key), o, rest);
  }

  // ---- readings published at once -------------------------------------------------------------------------

  /** The steps of a run that publish a reading at once: samples of a counter, of a raw
      gauge, or without a window, and the direct uptime. */
  function AtOnce(cfg: Config, log: seq<Micro>): seq<Micro>
  {
    if log == [] then []
    else
      (if log[0].Uptime? || (log[0].Take? && (cfg.duration.None? || log[0].s.counter || log[0].s.raw)) then [log[0]] else [])
      + AtOnce(cfg, log[1..])
  }

  /** The emitted readings without a count, in order. */
  function Uncounted(readings: seq<Reading>): seq<Reading>
  {
    if readings == [] then []
    else (if readings[0].count.None? then [readings[0]] else []) + Uncounted(readings[1..])
  }

  /** A reading that reports the step's own sample, or the uptime, and nothing else. */
  ghost predicate ReportsStep(r: Reading, m: Micro)
  {
    && r.agg == 0 && r.count == None && r.min == None && r.max == None
    && match m
       case Take(s, _, uptimeMs) => r.name == s.name && r.labels == s.labels && r.sum == s.value && r.uptimeMs == uptimeMs
       case Uptime(uptimeMs) => r.name == "uptime_ms" && r.labels == [] && r.sum == uptimeMs as real && r.uptimeMs == uptimeMs
       case Flush(_) => false
  }

  ghost predicate ReportSteps(rs: seq<Reading>, ms: seq<Micro>)
  {
    |rs| == |ms| && forall i :: 0 <= i < |rs| ==> ReportsStep(rs[i], ms[i])
  }

  lemma {:induction false} UncountedConcat(a: seq<Reading>, b: seq<Reading>)
    ensures Uncounted(a + b) == Uncounted(a) + Uncounted(b)
  {
    if a == [] {
      assert a + b == b;
      assert Uncounted(a) == [];
    } else {
      UncountedHead(a);
      UncountedHead(a + b);
      assert (a + b)[1..] == a[1..] + b;
      UncountedConcat(a[1..], b);
      hide Uncounted;
      ConcatAssoc(if a[0].count.None? then [a[0]] else [], Uncounted(a[1..]), Uncounted(b));
    }
  }

  lemma UncountedHead(rs: seq<Reading>)
    requires rs != []
    ensures Uncounted(rs) == (if rs[0].count.None? then [rs[0]] else []) + Uncounted(rs[1..])
  {
  }

  lemma StepAtOnce(cfg: Config, a: Agg, m: Micro)
    requires Enabled(a, m)
    ensures ReportSteps(Uncounted(Step(cfg, a, m).1), AtOnce(cfg, [m]))
  {
    hide KeyOf;
    assert [m][1..] == [];
    if Step(cfg, a, m).1 != [] {
      assert Step(cfg, a, m).1[1..] == [];
    }
  }

  /** Over whole runs: the readings without a count are, in order, exactly one for each sample
      of a counter or raw gauge, or of any kind if there is no window, and one for each
      uptime, each with that sample's own name, labels, value and uptime. */
  lemma {:induction false} PublishedAtOnce(cfg: Config, a: Agg, log: seq<Micro>)
    requires IsLog(cfg, a, log)
    ensures ReportSteps(Uncounted(Run(cfg, a, log).1), AtOnce(cfg, log))
    decreases |log|
  {
    if log != [] {
      var (b, first) := Step(cfg, a, log[0]);
      StepAtOnce(cfg, a, log[0]);
      AtOnceHead(cfg, log);
      PublishedAtOnce(cfg, b, log[1..]);
      hide Step, Enabled, ReportSteps, AtOnce;
      UncountedConcat(first, Run(cfg, b, log[1..]).1);
      ReportsConcat(Uncounted(first), AtOnce(cfg, [log[0]]), Uncounted(Run(cfg, b, log[1..]).1), AtOnce(cfg, log[1..]));
    }
  }

  lemma AtOnceHead(cfg: Config, log: seq<Micro>)
    requires log != []
    ensures AtOnce(cfg, log) == AtOnce(cfg, [log[0]]) + AtOnce(cfg, log[1..])
  {
    assert [log[0]][1..] == [] && AtOnce(cfg, []) == [];
  }

  lemma ReportsConcat(a: seq<Reading>, m: seq<Micro>, b: seq<Reading>, n: seq<Micro>)
    requires ReportSteps(a, m) && ReportSteps(b, n)
    ensures ReportSteps(a + b, m + n)
  {
    hide ReportsStep;
  }

  /** An observation that may be in a window: of a windowed stream, not a counter, not raw. */
  ghost predicate MayAggregate(cfg: Config, o: Observation) { cfg.duration.Some? && !o.s.counter && !o.s.raw }

  ghost predicate AllMayAggregate(cfg: Config, w: Windows)
  {
    forall k, o :: k in w && o in w[k] ==> MayAggregate(cfg, o)
  }

  /** No sample of a counter or raw gauge ever enters a window. */
  lemma {:induction false} WindowsHoldNoRawSample(cfg: Config, w: Windows, log: seq<Micro>)
    requires AllMayAggregate(cfg, w)
    ensures var (open, closed) := RefRun(cfg, w, log);
      AllMayAggregate(cfg, open) && forall c, o :: c in closed && o in c.window ==> MayAggregate(cfg, o)
    decreases |log|
  {
    hide KeyOf;
    if log != [] {
      var m := log[0];
      assert m.Take? && Accepts(cfg, w, m.s) ==> MayAggregate(cfg, Observation(m.s, m.t, m.uptimeMs));
      assert AllMayAggregate(cfg, RefStep(cfg, w, m));
      WindowsHoldNoRawSample(cfg, RefStep(cfg, w, m), log[1..]);
    }
  }

  /** A state says of its window, term by term: the first sample's name, labels and start,
      the last sample's uptime, and sum, count, minimum and maximum. */
  ghost predicate TellsWindow(st: StreamState, os: seq<Observation>)
  {
    && os != [] && st.name == os[0].s.name && st.labels == os[0].s.labels && st.start == os[0].t
    && st.uptimeMs == os[|os| - 1].uptimeMs && st.count == |os| && st.sum == Sum(os)
    && (forall o :: o in os ==> st.min <= o.s.value <= st.max)
    && (exists o :: o in os && o.s.value == st.min) && (exists o :: o in os && o.s.value == st.max)
  }

  lemma SummaryTells(os: seq<Observation>)
    requires os != []
    ensures TellsWindow(Summary(os), os)
  {
    hide Sum;
  }

  /** That is so for every open stream of every run, and there are at most 10000 of them. */
  lemma StateOfWindow(cfg: Config, a: Agg, w: Windows, log: seq<Micro>, k: string)
    requires Summarises(a, w) && IsLog(cfg, a, log) && k in Run(cfg, a, log).0.states
    ensures k in RefRun(cfg, w, log).0 && TellsWindow(Run(cfg, a, log).0.states[k], RefRun(cfg, w, log).0[k])
    ensures |Run(cfg, a, log).0.states| <= 10_000
  {
    RunRefines(cfg, a, w, log);
    hide KeyOf, TellsWindow, Summary, OwnKey, Run, IsLog, RefRun;
    var b, u := Run(cfg, a, log).0, RefRun(cfg, w, log).0;
    SummaryTells(u[k]);
    assert |b.states| == |b.states.Keys| == |u.Keys| == |u|;
  }

  /** A windowed sample emits nothing; it is counted if its stream is open or fewer than
      10000 are, and otherwise changes nothing. */
  lemma WindowedSampleCounts(cfg: Config, a: Agg, s: Sample, t: nat, uptimeMs: nat)
    requires cfg.duration.Some? && !s.counter && !s.raw
    ensures var (b, out) := Step(cfg, a, Take(s, t, uptimeMs)); var key := KeyOf(s.name, s.labels);
      && out == [] && b.seqs == a.seqs
      && (key in a.states ==> key in b.states && b.states[key].count == a.states[key].count + 1)
      && (key !in a.states && |a.states| < 10_000 ==> key in b.states && b.states[key].count == 1)
      && (key !in a.states && |a.states| >= 10_000 ==> b == a)
      && (forall k :: k in a.states && k != key ==> k in b.states && b.states[k] == a.states[k])
  {
    hide KeyOf;
  }

  /** The sum is that of the parts, and of one observation its value. */
  lemma {:induction false} SumOfParts(a: seq<Observation>, b: seq<Observation>)
    ensures Sum(a + b) == Sum(a) + Sum(b) && Sum([]) == 0.0 && forall o :: Sum([o]) == o.s.value
    decreases |b|
  {
    forall o: Observation ensures Sum([o]) == o.s.value {
      assert [o][..0] == [];
    }
    if b == [] {
      assert a + b == a;
    } else {
      SumOfParts(a, b[..|b| - 1]);
      assert (a + b)[..|a + b| - 1] == a + b[..|b| - 1];
    }
  }

  // ---- sequence numbers ---------------------------------------------------------------------------------

  /** Open streams are stored under their own key. */
  ghost predicate Keyed(a: Agg)
  {
    forall k :: k in a.states ==> KeyOf(a.states[k].name, a.states[k].labels) == k
  }

  /** The numbers a list of readings carries for one stream. */
  function SeqNos(readings: seq<Reading>, key: string): seq<nat>
  {
    if readings == [] then []
    else (if KeyOf(readings[0].name, readings[0].labels) == key then [readings[0].seqNo] else [])
         + SeqNos(readings[1..], key)
  }

  function Consecutive(base: nat, n: nat): seq<nat> { seq(n, i => base + 1 + i) }

  lemma {:induction false} SeqNosConcat(a: seq<Reading>, b: seq<Reading>, key: string)
    ensures SeqNos(a + b, key) == SeqNos(a, key) + SeqNos(b, key)
  {
    hide KeyOf;
    if a == [] {
      assert a + b == b;
      assert SeqNos(a, key) == [];
    } else {
      SeqNosHead(a, key);
      SeqNosHead(a + b, key);
      assert (a + b)[1..] == a[1..] + b;
      SeqNosConcat(a[1..], b, key);
      hide SeqNos;
      ConcatAssoc(if KeyOf(a[0].name, a[0].labels) == key then [a[0].seqNo] else [], SeqNos(a[1..], key), SeqNos(b, key));
    }
  }

  lemma SeqNosHead(rs: seq<Reading>, key: string)
    requires rs != []
    ensures SeqNos(rs, key) == (if KeyOf(rs[0].name, rs[0].labels) == key then [rs[0].seqNo] else []) + SeqNos(rs[1..], key)
  {
  }

  lemma NumberOne(a: Agg, r: Reading, key: string)
    requires r.seqNo == SeqOf(a.seqs, KeyOf(r.name, r.labels)) + 1
    ensures var own := KeyOf(r.name, r.labels);
      && SeqNos([r], key) == (if own == key then [SeqOf(a.seqs, key) + 1] else [])
      && SeqNos([r], key) == Consecutive(SeqOf(a.seqs, key), |SeqNos([r], key)|)
      && SeqOf(Bump(a, own).seqs, key) == SeqOf(a.seqs, key) + |SeqNos([r], key)|
  {
    hide KeyOf;
    assert SeqNos([r][1..], key) == [];
  }

  lemma StepNumbers(cfg: Config, a: Agg, m: Micro, key: string)
    requires Keyed(a) && Enabled(a, m)
    ensures var (b, out) := Step(cfg, a, m);
      && Keyed(b)
      && SeqNos(out, key) == Consecutive(SeqOf(a.seqs, key), |SeqNos(out, key)|)
      && SeqOf(b.seqs, key) == SeqOf(a.seqs, key) + |SeqNos(out, key)|
  {
    assert KeyOf("uptime_ms", []) == "uptime_ms";
    var out := Step(cfg, a, m).1;
    hide KeyOf, SeqOf, SeqNos, Consecutive;
    if out != [] {
      assert out == [out[0]];
      NumberOne(a, out[0], key);
    } else {
      NoNumbers(a.seqs, key);
    }
  }

  lemma NoNumbers(seqs: map<string, nat>, key: string)
    ensures SeqNos([], key) == Consecutive(SeqOf(seqs, key), 0) == []
  {
  }

  /** Along any run the readings of a stream, from the raw path, window flushes and the
      direct uptime path together, carry base+1, base+2, ... without a gap, in the
      order of emission, and the counter ends at the last one. */
  lemma {:induction false} GaplessNumbering(cfg: Config, a: Agg, log: seq<Micro>, key: string)
    requires Keyed(a) && IsLog(cfg, a, log)
    ensures var (b, out) := Run(cfg, a, log);
      && Keyed(b)
      && SeqNos(out, key) == Consecutive(SeqOf(a.seqs, key), |SeqNos(out, key)|)
      && SeqOf(b.seqs, key) == SeqOf(a.seqs, key) + |SeqNos(out, key)|
    decreases |log|
  {
    hide Step, Keyed, Enabled, KeyOf, SeqOf;
    if log != [] {
      var (b, first) := Step(cfg, a, log[0]);
      StepNumbers(cfg, a, log[0], key);
      GaplessNumbering(cfg, b, log[1..], key);
      SeqNosConcat(first, Run(cfg, b, log[1..]).1, key);
    }
  }

  // ---- the aggregator object ---------------------------------------------------------------------------

  function Takes(samples: seq<Sample>, clock: seq<nat>, uptimeMs: nat): seq<Micro>
    requires |clock| == |samples|
  {
    seq(|samples|, i requires 0 <= i < |samples| => Take(samples[i], clock[i], uptimeMs))
  }

  function Flushes(keys: seq<string>): seq<Micro> { seq(|keys|, i requires 0 <= i < |keys| => Flush(keys[i])) }

  class Aggregator {
    const cfg: Config
    var states: map<string, StreamState>
    var seqs: map<string, nat>

    ghost function View(): Agg
      reads this
    {
      Agg(states, seqs)
    }

    constructor (cfg: Config, loaded: map<string, nat>)
      ensures this.cfg == cfg && View() == Agg(map[], loaded)
    {
      this.cfg := cfg;
      this.states := map[];
      this.seqs := loaded;
    }

    method NextSeq(key: string) returns (n: nat)
      modifies this`seqs
      ensures View() == Bump(old(View()), key) && n == SeqOf(old(seqs), key) + 1
    {
      n := (if key in seqs then seqs[key] else 0) + 1;
      seqs := seqs[key := n];
    }

    method TakeSample(s: Sample, t: nat, uptimeMs: nat) returns (ready: seq<Reading>)
      modifies this
      ensures (View(), ready) == Step(cfg, old(View()), Take(s, t, uptimeMs))
    {
      hide KeyOf;
      var key := ComputeKey(s.name, s.labels);
      ready := [];
      if cfg.duration.None? || s.counter || s.raw {
        var n := NextSeq(key);
        ready := [Reading(s.name, AGG_NONE, s.labels, s.value, None, None, None, n, uptimeMs)];
      } else if key in states {
        states := states[key := states[key].Update(s.value, uptimeMs)];
      } else if |states| < MAX_STREAMS {
        states := states[key := NewStream(s, t, uptimeMs)];
      }
    }

    method FlushStream(key: string) returns (r: Reading)
      requires key in states
      modifies this
      ensures (View(), [r]) == Step(cfg, old(View()), Flush(key))
    {
      var st := states[key];
      states := states - {key};
      var n := NextSeq(key);
      r := Reading(st.name, cfg.agg, st.labels, st.sum, Some(st.count), Some(st.min), Some(st.max), n, st.uptimeMs);
    }

    /** One tick: all samples in order, then every stream whose window has elapsed, in
        some order. Afterwards no open window is as old as the duration. */
    method Ingest(samples: seq<Sample>, clock: seq<nat>, now: nat, uptimeMs: nat)
      returns (ready: seq<Reading>, ghost flushed: seq<string>)
      requires |clock| == |samples|
      modifies this
      ensures var log := Takes(samples, clock, uptimeMs) + Flushes(flushed);
        IsLog(cfg, old(View()), log) && Run(cfg, old(View()), log) == (View(), ready)
      ensures |Takes(samples, clock, uptimeMs)| == |samples| && |Flushes(flushed)| == |flushed|
      ensures forall i :: 0 <= i < |samples| ==>
        Takes(samples, clock, uptimeMs)[i] == Take(samples[i], clock[i], uptimeMs)
      ensures forall i :: 0 <= i < |flushed| ==> Flushes(flushed)[i] == Flush(flushed[i])
      ensures cfg.duration.Some? ==> forall k :: k in states ==> now < states[k].start + cfg.duration.value
      ensures cfg.duration.None? ==> flushed == []
      ensures IsLog(cfg, old(View()), Takes(samples, clock, uptimeMs))
      ensures var taken := Run(cfg, old(View()), Takes(samples, clock, uptimeMs)).0;
        forall k :: k in flushed ==> k in taken.states && now >= taken.states[k].start + cfg.duration.value
    {
      hide Step, KeyOf;
      ghost var a0 := View();
      ghost var takes := Takes(samples, clock, uptimeMs);
      ready, flushed := [], [];
      assert takes[..0] == [];
      for i := 0 to |samples|
        invariant IsLog(cfg, a0, takes[..i]) && Run(cfg, a0, takes[..i]) == (View(), ready)
      {
        RunAppend(cfg, a0, takes[..i], takes[i]);
        assert takes[..i + 1] == takes[..i] + [takes[i]];
        var out := TakeSample(samples[i], clock[i], uptimeMs);
        ready := ready + out;
      }
      assert takes[..|samples|] == takes;
      ghost var taken := View();
      assert takes + Flushes([]) == takes;
      if cfg.duration.Some? {
        var expired := set k | k in states && states[k].Expired(cfg.duration.value, now);
        while expired != {}
          invariant IsLog(cfg, a0, takes + Flushes(flushed))
          invariant Run(cfg, a0, takes + Flushes(flushed)) == (View(), ready)
          invariant expired == set k | k in states && states[k].Expired(cfg.duration.value, now)
          invariant states.Keys <= taken.states.Keys
          invariant forall k :: k in states ==> states[k] == taken.states[k]
          invariant forall k :: k in flushed ==> k in taken.states && taken.states[k].Expired(cfg.duration.value, now)
          decreases expired
        {
          var key :| key in expired;
          FlushKeepsOthers(cfg, View(), key);
          RunAppend(cfg, a0, takes + Flushes(flushed), Flush(key));
          assert takes + Flushes(flushed + [key]) == (takes + Flushes(flushed)) + [Flush(key)];
          var r := FlushStream(key);
          expired, flushed, ready := expired - {key}, flushed + [key], ready + [r];
        }
        assert forall k :: k in states && states[k].Expired(cfg.duration.value, now) ==> k in expired;
      }
    }
  }

  lemma FlushKeepsOthers(cfg: Config, a: Agg, key: string)
    requires key in a.states
    ensures Step(cfg, a, Flush(key)).0.states == a.states - {key}
  {
  }
}
