/** The metrics task (src/metrics/mod.rs:98-217): a capped pending queue with retry,
    and sequence numbers saved at most once a minute and on clean shutdown. */
module Metrics {
  import opened Prelude
  import opened StreamKey
  import opened Aggregation

  /** MAX_PENDING and SEQ_SAVE_INTERVAL (milliseconds). */
  const MAX_PENDING: nat := 1000
  const SEQ_SAVE_INTERVAL: nat := 60_000

  /** How the publish attempt of a tick goes. A failing call may already have handed
      off some of the readings. */
  datatype Attempt = Offline | Failed(n: nat) | Completed

  /** The task's variables and the saved file. */
  datatype Task = Task(agg: Agg, pending: seq<Reading>, dirty: bool, lastSave: nat, saved: map<string, nat>)

  /** The newest n elements, and the older ones before them. */
  function Newest<T>(s: seq<T>, n: nat): seq<T> { if |s| > n then s[|s| - n..] else s }

  function Older<T>(s: seq<T>, n: nat): seq<T> { if |s| > n then s[..|s| - n] else [] }

  predicate AttemptFits(pending: seq<Reading>, attempt: Attempt) { attempt.Failed? ==> attempt.n < |pending| }

  /** Pending after the new readings were appended and the oldest ones capped. */
  function Queued(task: Task, ready: seq<Reading>): seq<Reading> { Newest(task.pending + ready, MAX_PENDING) }

  /** The publish attempt of a tick: only a completed one clears the queue, and it saves
      the numbers at once if the last save is a minute old. */
  function Attempted(task: Task, attempt: Attempt, now: nat): Task
  {
    if task.pending == [] || !attempt.Completed? then task
    else if now >= task.lastSave + SEQ_SAVE_INTERVAL then Task(task.agg, [], false, now, task.agg.seqs)
    else task.(pending := [], dirty := true)
  }

  /** One tick, from the readings it emits to the end of the publish attempt. */
  function Tick(task: Task, agg: Agg, ready: seq<Reading>, attempt: Attempt, now: nat): Task
  {
    Attempted(task.(agg := agg, pending := Queued(task, ready)), attempt, now)
  }

  /** A clean shutdown, and a new start that loads what was saved. */
  function CleanRestart(task: Task, now: nat): Task
  {
    var saved := if task.dirty then task.agg.seqs else task.saved;
    Task(Agg(map[], saved), [], false, now, saved)
  }

  // ---- histories ---------------------------------------------------------------------------------

  /** Over all starts: readings `emitted`, sent by `completed` publishes, `dropped` at the
      cap, `lost` with the queue at a shutdown, and every reading `handed` to the client,
      in order. `since` holds those emitted since the last completed publish or start;
      `life` those handed off since the last start; `unsaved` those handed off by failed
      publishes since the numbers were last saved or loaded; `saves` are the times at
      which ticks saved the numbers since the last start. */
  datatype History = History(emitted: seq<Reading>, since: seq<Reading>, completed: seq<Reading>, dropped: seq<Reading>,
                             lost: seq<Reading>, handed: seq<Reading>, life: seq<Reading>, unsaved: seq<Reading>,
                             saves: seq<nat>)

  /** What an attempt gives to the client. */
  function HandedOff(pending: seq<Reading>, attempt: Attempt): seq<Reading>
  {
    match attempt
    case Offline => []
    case Failed(n) => if n <= |pending| then pending[..n] else pending
    case Completed => pending
  }

  predicate Sent(task: Task, ready: seq<Reading>, attempt: Attempt)
  {
    attempt.Completed? && Queued(task, ready) != []
  }

  /** The tick saved the numbers: something completed, and nothing is dirty after it. */
  predicate Saves(task: Task, ready: seq<Reading>, attempt: Attempt, now: nat)
  {
    Sent(task, ready, attempt) && !Tick(task, task.agg, ready, attempt, now).dirty
  }

  function TickHistory(task: Task, h: History, ready: seq<Reading>, attempt: Attempt, now: nat): History
  {
    var pending := Queued(task, ready);
    var off := HandedOff(pending, attempt);
    var sent := Sent(task, ready, attempt);
    History(h.emitted + ready,
            if sent then [] else h.since + ready,
            if sent then h.completed + pending else h.completed,
            h.dropped + Older(task.pending + ready, MAX_PENDING),
            h.lost,
            h.handed + off,
            h.life + off,
            if Saves(task, ready, attempt, now) then []
            else if attempt.Failed? then h.unsaved + off else h.unsaved,
            if Saves(task, ready, attempt, now) then h.saves + [now] else h.saves)
  }

  function RestartHistory(task: Task, h: History): History
  {
    h.(since := [], lost := h.lost + task.pending, life := [], unsaved := [], saves := [])
  }

  function KeyOfReading(r: Reading): string { KeyOf(r.name, r.labels) }

  datatype Event =
    | Ticked(log: seq<Micro>, attempt: Attempt, now: nat)
    | Restarted(now: nat)

  predicate Possible(cfg: Config, task: Task, ev: Event)
  {
    match ev
    case Ticked(log, attempt, _) =>
      IsLog(cfg, task.agg, log) && AttemptFits(Queued(task, Run(cfg, task.agg, log).1), attempt)
    case Restarted(_) => true
  }

  function After(cfg: Config, task: Task, ev: Event): Task
    requires Possible(cfg, task, ev)
  {
    match ev
    case Ticked(log, attempt, now) =>
      var (agg, ready) := Run(cfg, task.agg, log);
      Tick(task, agg, ready, attempt, now)
    case Restarted(now) => CleanRestart(task, now)
  }

  function HistoryAfter(cfg: Config, task: Task, h: History, ev: Event): History
    requires Possible(cfg, task, ev)
  {
    match ev
    case Ticked(log, attempt, now) => TickHistory(task, h, Run(cfg, task.agg, log).1, attempt, now)
    case Restarted(_) => RestartHistory(task, h)
  }

  predicate IsHistory(cfg: Config, task: Task, events: seq<Event>)
    decreases |events|
  {
    events == [] || (Possible(cfg, task, events[0]) && IsHistory(cfg, After(cfg, task, events[0]), events[1..]))
  }

  function RunTask(cfg: Config, task: Task, h: History, events: seq<Event>): (Task, History)
    requires IsHistory(cfg, task, events)
    decreases |events|
  {
    if events == [] then (task, h)
    else RunTask(cfg, After(cfg, task, events[0]), HistoryAfter(cfg, task, h, events[0]), events[1..])
  }

  // ---- the pending queue ----------------------------------------------------------------------------

  /** The queue is always the newest readings, at most 1000, of those emitted since the
      last completed publish. */
  ghost predicate PendingExact(task: Task, h: History) { task.pending == Newest(h.since, MAX_PENDING) }

  lemma NewestAgain(s: seq<Reading>, more: seq<Reading>, n: nat)
    ensures Newest(Newest(s, n) + more, n) == Newest(s + more, n)
  {
  }

  lemma TickKeepsPending(task: Task, h: History, agg: Agg, ready: seq<Reading>, attempt: Attempt, now: nat)
    requires PendingExact(task, h)
    ensures PendingExact(Tick(task, agg, ready, attempt, now), TickHistory(task, h, ready, attempt, now))
  {
    NewestAgain(h.since, ready, MAX_PENDING);
  }

  // ---- sequence numbers across restarts ----------------------------------------------------------------

  ghost predicate CoveredBy(rs: seq<Reading>, seqs: map<string, nat>)
  {
    forall r :: r in rs ==> r.seqNo <= SeqOf(seqs, KeyOfReading(r))
  }

  /** Completed and pending readings are numbered within the counters, and unless the
      numbers are dirty the saved file already covers all completed publishes. */
  ghost predicate NumbersSafe(task: Task, h: History)
  {
    && Keyed(task.agg)
    && CoveredBy(h.completed, task.agg.seqs)
    && CoveredBy(h.since, task.agg.seqs)
    && (task.dirty || CoveredBy(h.completed, task.saved))
  }

  lemma RunNumbers(cfg: Config, a: Agg, log: seq<Micro>, r: Reading)
    requires Keyed(a) && IsLog(cfg, a, log) && r in Run(cfg, a, log).1
    ensures SeqOf(a.seqs, KeyOfReading(r)) < r.seqNo <= SeqOf(Run(cfg, a, log).0.seqs, KeyOfReading(r))
  {
    var key := KeyOfReading(r);
    GaplessNumbering(cfg, a, log, key);
    InSeqNos(Run(cfg, a, log).1, r);
  }

  lemma {:induction false} InSeqNos(rs: seq<Reading>, r: Reading)
    requires r in rs
    ensures r.seqNo in SeqNos(rs, KeyOfReading(r))
  {
    hide KeyOf;
    if rs[0] != r {
      InSeqNos(rs[1..], r);
    }
  }

  lemma CountersGrow(cfg: Config, a: Agg, log: seq<Micro>, rs: seq<Reading>)
    requires Keyed(a) && IsLog(cfg, a, log) && CoveredBy(rs, a.seqs)
    ensures Keyed(Run(cfg, a, log).0)
    ensures CoveredBy(rs, Run(cfg, a, log).0.seqs)
    ensures CoveredBy(Run(cfg, a, log).1, Run(cfg, a, log).0.seqs)
  {
    hide Run, IsLog, KeyOf, Keyed, SeqOf;
    GaplessNumbering(cfg, a, log, "");
    forall r | r in rs ensures r.seqNo <= SeqOf(Run(cfg, a, log).0.seqs, KeyOfReading(r)) {
      GaplessNumbering(cfg, a, log, KeyOfReading(r));
    }
    forall r | r in Run(cfg, a, log).1 ensures r.seqNo <= SeqOf(Run(cfg, a, log).0.seqs, KeyOfReading(r)) {
      RunNumbers(cfg, a, log, r);
    }
  }

  lemma CoverConcat(a: seq<Reading>, b: seq<Reading>, seqs: map<string, nat>)
    requires CoveredBy(a, seqs) && CoveredBy(b, seqs)
    ensures CoveredBy(a + b, seqs)
  {
  }

  lemma TickKeepsNumbers(cfg: Config, task: Task, h: History, log: seq<Micro>, attempt: Attempt, now: nat)
    requires NumbersSafe(task, h) && PendingExact(task, h) && Possible(cfg, task, Ticked(log, attempt, now))
    ensures var ev := Ticked(log, attempt, now); NumbersSafe(After(cfg, task, ev), HistoryAfter(cfg, task, h, ev))
  {
    var (agg, ready) := Run(cfg, task.agg, log);
    CountersGrow(cfg, task.agg, log, h.completed);
    CountersGrow(cfg, task.agg, log, h.since);
    hide Run, IsLog, KeyOf, Keyed, SeqOf;
    CoverConcat(h.since, ready, agg.seqs);
    NewestAgain(h.since, ready, MAX_PENDING);
    var pending := Queued(task, ready);
    assert CoveredBy(pending, agg.seqs) by {
      assert forall r :: r in pending ==> r in h.since + ready;
    }
    CoverConcat(h.completed, pending, agg.seqs);
  }

  ghost predicate TaskInv(task: Task, h: History)
  {
    PendingExact(task, h) && NumbersSafe(task, h)
  }

  lemma StepKeepsTaskInv(cfg: Config, task: Task, h: History, ev: Event)
    requires TaskInv(task, h) && Possible(cfg, task, ev)
    ensures TaskInv(After(cfg, task, ev), HistoryAfter(cfg, task, h, ev))
  {
    match ev
    case Ticked(log, attempt, now) =>
      TickKeepsNumbers(cfg, task, h, log, attempt, now);
      var (agg, ready) := Run(cfg, task.agg, log);
      TickKeepsPending(task, h, agg, ready, attempt, now);
    case Restarted(now) =>
      hide KeyOf;
  }

  /** Both laws hold after any series of ticks and clean restarts. */
  lemma {:induction false} TaskLaws(cfg: Config, task: Task, h: History, events: seq<Event>)
    requires TaskInv(task, h) && IsHistory(cfg, task, events)
    ensures TaskInv(RunTask(cfg, task, h, events).0, RunTask(cfg, task, h, events).1)
    decreases |events|
  {
    hide TaskInv, Possible, After, HistoryAfter;
    if events != [] {
      StepKeepsTaskInv(cfg, task, h, events[0]);
      TaskLaws(cfg, After(cfg, task, events[0]), HistoryAfter(cfg, task, h, events[0]), events[1..]);
    }
  }

  /** A first start on an empty directory. */
  function FirstStart(now: nat): Task { Task(Agg(map[], map[]), [], false, now, map[]) }

  const NO_HISTORY: History := History([], [], [], [], [], [], [], [], [])

  /** After any series of runs, each ended by a clean shutdown, every newly assigned
      number exceeds every number of that stream sent by a completed publish. */
  lemma CleanRestartFreshness(cfg: Config, start: nat, events: seq<Event>, log: seq<Micro>, sent: Reading, later: Reading)
    requires IsHistory(cfg, FirstStart(start), events)
    requires var (task, h) := RunTask(cfg, FirstStart(start), NO_HISTORY, events);
      && IsLog(cfg, task.agg, log)
      && sent in h.completed && later in Run(cfg, task.agg, log).1
      && KeyOfReading(sent) == KeyOfReading(later)
    ensures sent.seqNo < later.seqNo
  {
    hide IsHistory, RunTask, KeyOf, SeqOf, Run;
    TaskLaws(cfg, FirstStart(start), NO_HISTORY, events);
    var (task, h) := RunTask(cfg, FirstStart(start), NO_HISTORY, events);
    RunNumbers(cfg, task.agg, log, later);
  }

  /** After any such series the queue holds the newest readings since the last completed
      publish, at most 1000 of them. */
  lemma PendingIsNewest(cfg: Config, start: nat, events: seq<Event>)
    requires IsHistory(cfg, FirstStart(start), events)
    ensures var (task, h) := RunTask(cfg, FirstStart(start), NO_HISTORY, events);
      && task.pending == (if |h.since| > 1000 then h.since[|h.since| - 1000..] else h.since)
      && |task.pending| <= 1000
  {
    TaskLaws(cfg, FirstStart(start), NO_HISTORY, events);
    hide IsHistory, RunTask;
  }

  // ---- numbers in the queue ----------------------------------------------------------------------------

  /** The readings of a list carry the last numbers its streams were given, in order. */
  ghost predicate EndsAt(rs: seq<Reading>, seqs: map<string, nat>, key: string)
  {
    var n := |SeqNos(rs, key)|;
    n <= SeqOf(seqs, key) && SeqNos(rs, key) == Consecutive(SeqOf(seqs, key) - n, n)
  }

  lemma StepKeepsNumbering(cfg: Config, task: Task, h: History, ev: Event, key: string)
    requires Keyed(task.agg) && EndsAt(h.since, task.agg.seqs, key) && Possible(cfg, task, ev)
    ensures EndsAt(HistoryAfter(cfg, task, h, ev).since, After(cfg, task, ev).agg.seqs, key)
  {
    hide KeyOf, Run, IsLog, Keyed;
    if ev.Ticked? {
      var ready := Run(cfg, task.agg, ev.log).1;
      GaplessNumbering(cfg, task.agg, ev.log, key);
      SeqNosConcat(h.since, ready, key);
    }
  }

  lemma {:induction false} SinceNumbered(cfg: Config, task: Task, h: History, events: seq<Event>, key: string)
    requires TaskInv(task, h) && EndsAt(h.since, task.agg.seqs, key) && IsHistory(cfg, task, events)
    ensures var (task', h') := RunTask(cfg, task, h, events); EndsAt(h'.since, task'.agg.seqs, key)
    decreases |events|
  {
    hide Possible, After, HistoryAfter, EndsAt;
    if events != [] {
      StepKeepsTaskInv(cfg, task, h, events[0]);
      StepKeepsNumbering(cfg, task, h, events[0], key);
      SinceNumbered(cfg, After(cfg, task, events[0]), HistoryAfter(cfg, task, h, events[0]), events[1..], key);
    }
  }

  /** In the queue, each stream's numbers are consecutive and end at its counter. */
  lemma PendingNumbersConsecutive(cfg: Config, start: nat, events: seq<Event>, key: string)
    requires IsHistory(cfg, FirstStart(start), events)
    ensures var task := RunTask(cfg, FirstStart(start), NO_HISTORY, events).0; EndsAt(task.pending, task.agg.seqs, key)
  {
    FirstNumbered(start, key);
    hide *;
    PendingIsNewest(cfg, start, events);
    SinceNumbered(cfg, FirstStart(start), NO_HISTORY, events, key);
    var (task, h) := RunTask(cfg, FirstStart(start), NO_HISTORY, events);
    NewestEndsAt(h.since, 1000, task.agg.seqs, key);
  }

  lemma FirstNumbered(start: nat, key: string)
    ensures TaskInv(FirstStart(start), NO_HISTORY)
    ensures EndsAt(NO_HISTORY.since, FirstStart(start).agg.seqs, key)
  {
  }

  lemma NewestEndsAt(rs: seq<Reading>, n: nat, seqs: map<string, nat>, key: string)
    requires EndsAt(rs, seqs, key)
    ensures EndsAt(if |rs| > n then rs[|rs| - n..] else rs, seqs, key)
  {
    hide KeyOf, SeqNos;
    var newest := if |rs| > n then rs[|rs| - n..] else rs;
    var cut := |rs| - |newest|;
    assert rs == rs[..cut] + newest;
    SeqNosConcat(rs[..cut], newest, key);
    assert SeqNos(newest, key) == SeqNos(rs, key)[|SeqNos(rs, key)| - |SeqNos(newest, key)|..];
  }

  // ---- every reading is accounted for ---------------------------------------------------------------------

  ghost predicate Accounted(task: Task, h: History, x: Reading)
  {
    Count(h.emitted, x)
    == Count(h.completed, x) + Count(h.dropped, x) + Count(h.lost, x) + Count(task.pending, x)
  }

  lemma OlderAndNewest(all: seq<Reading>, n: nat, x: Reading)
    ensures Count(all, x) == Count(Older(all, n), x) + Count(Newest(all, n), x)
  {
    if |all| > n {
      CountSplit(all, |all| - n, x);
    }
  }

  lemma TickParts(task: Task, h: History, ready: seq<Reading>, attempt: Attempt, now: nat, agg: Agg)
    ensures var t, g := Tick(task, agg, ready, attempt, now), TickHistory(task, h, ready, attempt, now);
      var queue := Queued(task, ready);
      && g.emitted == h.emitted + ready && g.lost == h.lost
      && g.dropped == h.dropped + Older(task.pending + ready, MAX_PENDING)
      && if Sent(task, ready, attempt) then g.completed == h.completed + queue && t.pending == []
         else g.completed == h.completed && t.pending == queue
  {
    hide Older, Newest, HandedOff;
  }

  lemma TickAccounts(task: Task, h: History, ready: seq<Reading>, attempt: Attempt, now: nat, agg: Agg, x: Reading)
    requires Accounted(task, h, x)
    ensures Accounted(Tick(task, agg, ready, attempt, now), TickHistory(task, h, ready, attempt, now), x)
  {
    var all := task.pending + ready;
    assert Queued(task, ready) == Newest(all, MAX_PENDING) && Count<Reading>([], x) == 0;
    hide Older, Newest, HandedOff, Tick, TickHistory, Queued, Sent, Count;
    TickParts(task, h, ready, attempt, now, agg);
    CountConcat(h.emitted, ready, x);
    CountConcat(task.pending, ready, x);
    CountConcat(h.dropped, Older(all, MAX_PENDING), x);
    CountConcat(h.completed, Queued(task, ready), x);
    OlderAndNewest(all, MAX_PENDING, x);
  }

  lemma StepAccounts(cfg: Config, task: Task, h: History, ev: Event, x: Reading)
    requires Accounted(task, h, x) && Possible(cfg, task, ev)
    ensures Accounted(After(cfg, task, ev), HistoryAfter(cfg, task, h, ev), x)
  {
    match ev
    case Ticked(log, attempt, now) =>
      var (agg, ready) := Run(cfg, task.agg, log);
      TickAccounts(task, h, ready, attempt, now, agg, x);
      hide Accounted, Run, IsLog;
    case Restarted(_) =>
      CountConcat(h.lost, task.pending, x);
  }

  lemma {:induction false} RunAccounts(cfg: Config, task: Task, h: History, events: seq<Event>, x: Reading)
    requires Accounted(task, h, x) && IsHistory(cfg, task, events)
    ensures var (task', h') := RunTask(cfg, task, h, events); Accounted(task', h', x)
    decreases |events|
  {
    hide Possible, After, HistoryAfter, Accounted;
    if events != [] {
      StepAccounts(cfg, task, h, events[0], x);
      RunAccounts(cfg, After(cfg, task, events[0]), HistoryAfter(cfg, task, h, events[0]), events[1..], x);
    }
  }

  /** Every reading ever emitted was sent by a completed publish, is pending, was dropped at
      the cap as one of the oldest in the queue, or was lost with the queue at a shutdown,
      exactly as often as it was emitted. */
  lemma EveryReadingAccounted(cfg: Config, start: nat, events: seq<Event>, x: Reading)
    requires IsHistory(cfg, FirstStart(start), events)
    ensures var (task, h) := RunTask(cfg, FirstStart(start), NO_HISTORY, events);
      Count(h.emitted, x)
      == Count(h.completed, x) + Count(h.dropped, x) + Count(h.lost, x) + Count(task.pending, x)
  {
    RunAccounts(cfg, FirstStart(start), NO_HISTORY, events, x);
    hide IsHistory, RunTask, Count;
  }

  // ---- saves are throttled ---------------------------------------------------------------------------------

  /** When this life of the task began. */
  function LastStart(start: nat, events: seq<Event>): nat
  {
    if events == [] then start
    else
      var last := events[|events| - 1];
      if last.Restarted? then last.now else LastStart(start, events[..|events| - 1])
  }

  /** The last save or, before the first one, the start. */
  function LastOf(saves: seq<nat>, start: nat): nat { if saves == [] then start else saves[|saves| - 1] }

  /** Any two saves, and the start and the first save, are at least a minute apart. */
  ghost predicate MinuteApart(saves: seq<nat>, start: nat)
  {
    && (saves != [] ==> saves[0] >= start + 60_000)
    && forall i :: 0 <= i < |saves| - 1 ==> saves[i + 1] >= saves[i] + 60_000
  }

  lemma {:induction false} MinuteApartAll(saves: seq<nat>, start: nat, i: nat, j: nat)
    requires MinuteApart(saves, start) && i < j < |saves|
    ensures saves[j] >= saves[i] + 60_000
    decreases j
  {
    if i < j - 1 {
      MinuteApartAll(saves, start, i, j - 1);
    }
    assert saves[j - 1 + 1] >= saves[j - 1] + 60_000;
  }

  ghost predicate Throttled(task: Task, h: History, start: nat)
  {
    task.lastSave == LastOf(h.saves, start) && MinuteApart(h.saves, start)
  }

  lemma StepThrottles(cfg: Config, task: Task, h: History, ev: Event, start: nat)
    requires Throttled(task, h, start) && Possible(cfg, task, ev)
    ensures Throttled(After(cfg, task, ev), HistoryAfter(cfg, task, h, ev), if ev.Restarted? then ev.now else start)
  {
    hide Run, IsLog, Queued, HandedOff, Older;
  }

  lemma {:induction false} RunTaskSplit(cfg: Config, task: Task, h: History, events: seq<Event>, ev: Event)
    requires IsHistory(cfg, task, events + [ev])
    ensures IsHistory(cfg, task, events)
    ensures var (t, g) := RunTask(cfg, task, h, events);
      Possible(cfg, t, ev) && RunTask(cfg, task, h, events + [ev]) == (After(cfg, t, ev), HistoryAfter(cfg, t, g, ev))
    decreases |events|
  {
    hide Possible, After, HistoryAfter;
    if events == [] {
      assert events + [ev] == [ev];
      OneEvent(cfg, task, h, ev);
    } else {
      assert (events + [ev])[1..] == events[1..] + [ev] && (events + [ev])[0] == events[0];
      RunTaskSplit(cfg, After(cfg, task, events[0]), HistoryAfter(cfg, task, h, events[0]), events[1..], ev);
    }
  }

  lemma {:induction false} AlwaysThrottled(cfg: Config, start: nat, events: seq<Event>)
    requires IsHistory(cfg, FirstStart(start), events)
    ensures var (task, h) := RunTask(cfg, FirstStart(start), NO_HISTORY, events);
      Throttled(task, h, LastStart(start, events))
    decreases |events|
  {
    if events != [] {
      var k := |events| - 1;
      assert events == events[..k] + [events[k]];
      RunTaskSplit(cfg, FirstStart(start), NO_HISTORY, events[..k], events[k]);
      AlwaysThrottled(cfg, start, events[..k]);
      var (task, h) := RunTask(cfg, FirstStart(start), NO_HISTORY, events[..k]);
      hide Throttled, RunTask, IsHistory, Possible, After, HistoryAfter;
      StepThrottles(cfg, task, h, events[k], LastStart(start, events[..k]));
    }
  }

  /** Over every history: the ticks of one life save the numbers at times at least a minute
      apart, the first no sooner than a minute after the start. */
  lemma SavesAreThrottled(cfg: Config, start: nat, events: seq<Event>)
    requires IsHistory(cfg, FirstStart(start), events)
    ensures var h := RunTask(cfg, FirstStart(start), NO_HISTORY, events).1;
      && (h.saves != [] ==> h.saves[0] >= LastStart(start, events) + 60_000)
      && forall i, j :: 0 <= i < j < |h.saves| ==> h.saves[j] >= h.saves[i] + 60_000
  {
    AlwaysThrottled(cfg, start, events);
    hide RunTask, IsHistory;
    var h := RunTask(cfg, FirstStart(start), NO_HISTORY, events).1;
    forall i, j | 0 <= i < j < |h.saves| ensures h.saves[j] >= h.saves[i] + 60_000 {
      MinuteApartAll(h.saves, LastStart(start, events), i, j);
    }
  }

  /** And they do save: a publish that completes at least a minute after the last save or
      start leaves all counters saved and nothing dirty; one that completes sooner leaves
      the file as it was and the numbers dirty. */
  lemma CompletedPublishSaves(cfg: Config, start: nat, events: seq<Event>, log: seq<Micro>, now: nat)
    requires IsHistory(cfg, FirstStart(start), events)
    requires var (task, h) := RunTask(cfg, FirstStart(start), NO_HISTORY, events);
      IsLog(cfg, task.agg, log) && task.pending + Run(cfg, task.agg, log).1 != []
    ensures var (task, h) := RunTask(cfg, FirstStart(start), NO_HISTORY, events);
      var ev := Ticked(log, Completed, now);
      && Possible(cfg, task, ev)
      && var t := After(cfg, task, ev);
        && t.pending == []
        && (now >= LastOf(h.saves, LastStart(start, events)) + 60_000 ==>
              t.saved == t.agg.seqs && !t.dirty && HistoryAfter(cfg, task, h, ev).saves == h.saves + [now])
        && (now < LastOf(h.saves, LastStart(start, events)) + 60_000 ==>
              t.saved == task.saved && t.dirty && HistoryAfter(cfg, task, h, ev).saves == h.saves)
  {
    AlwaysThrottled(cfg, start, events);
    hide RunTask, IsHistory, MinuteApart, LastStart, Run, IsLog, Older;
  }

  // ---- when handed-off numbers are assigned again -------------------------------------------------------------

  /** A reading with r's stream and number is among rs. */
  ghost predicate Repeats(rs: seq<Reading>, r: Reading)
  {
    exists later :: later in rs && KeyOfReading(later) == KeyOfReading(r) && later.seqNo == r.seqNo
  }

  /** Some continuation from these counters assigns r's number in r's stream. */
  ghost predicate CanRecur(cfg: Config, a: Agg, r: Reading)
  {
    exists log :: IsLog(cfg, a, log) && Repeats(Run(cfg, a, log).1, r)
  }

  /** A raw sample of r's stream gets the next number of that stream. */
  lemma NextRaw(cfg: Config, a: Agg, r: Reading) returns (m: Micro)
    ensures Enabled(a, m) && |Step(cfg, a, m).1| == 1
    ensures var out := Step(cfg, a, m).1[0];
      KeyOfReading(out) == KeyOfReading(r) && out.seqNo == SeqOf(a.seqs, KeyOfReading(r)) + 1
    ensures SeqOf(Step(cfg, a, m).0.seqs, KeyOfReading(r)) == SeqOf(a.seqs, KeyOfReading(r)) + 1
  {
    hide KeyOf;
    m := Take(Sample(r.name, 0.0, r.labels, false, true), 0, 0);
  }

  /** Raw samples of r's stream climb to any number beyond its counter. */
  lemma {:induction false} Climb(cfg: Config, a: Agg, r: Reading, n: nat) returns (log: seq<Micro>)
    requires SeqOf(a.seqs, KeyOfReading(r)) < n
    ensures IsLog(cfg, a, log) && SeqOf(Run(cfg, a, log).0.seqs, KeyOfReading(r)) == n
    ensures exists later :: later in Run(cfg, a, log).1 && KeyOfReading(later) == KeyOfReading(r) && later.seqNo == n
    decreases n - SeqOf(a.seqs, KeyOfReading(r))
  {
    hide KeyOfReading, Step, Enabled, SeqOf;
    if SeqOf(a.seqs, KeyOfReading(r)) + 1 == n {
      var m := NextRaw(cfg, a, r);
      OneLog(cfg, a, m);
      log := [m];
      assert Step(cfg, a, m).1[0] in Run(cfg, a, log).1;
    } else {
      var before := Climb(cfg, a, r, n - 1);
      var b := Run(cfg, a, before).0;
      var m := NextRaw(cfg, b, r);
      RunAppend(cfg, a, before, m);
      log := before + [m];
      assert Step(cfg, b, m).1[0] in Run(cfg, a, log).1;
    }
  }

  /** A number can be assigned again exactly when it is beyond its stream's counter. */
  lemma RecursIff(cfg: Config, a: Agg, r: Reading)
    requires Keyed(a)
    ensures CanRecur(cfg, a, r) <==> r.seqNo > SeqOf(a.seqs, KeyOfReading(r))
  {
    hide KeyOfReading, Run, IsLog, Keyed, SeqOf;
    if r.seqNo > SeqOf(a.seqs, KeyOfReading(r)) {
      var log := Climb(cfg, a, r, r.seqNo);
      assert Repeats(Run(cfg, a, log).1, r);
    }
    if CanRecur(cfg, a, r) {
      var log :| IsLog(cfg, a, log) && Repeats(Run(cfg, a, log).1, r);
      var later :| later in Run(cfg, a, log).1 && KeyOfReading(later) == KeyOfReading(r) && later.seqNo == r.seqNo;
      RunNumbers(cfg, a, log, later);
    }
  }

  /** None of the numbers of rs can be assigned again. */
  ghost predicate NoneRecurs(cfg: Config, a: Agg, rs: seq<Reading>)
  {
    forall r :: r in rs ==> !CanRecur(cfg, a, r)
  }

  lemma NoneRecursIff(cfg: Config, a: Agg, rs: seq<Reading>)
    requires Keyed(a)
    ensures NoneRecurs(cfg, a, rs) <==> CoveredBy(rs, a.seqs)
  {
    hide CanRecur, KeyOfReading, Keyed, SeqOf;
    forall r | r in rs ensures !CanRecur(cfg, a, r) <==> r.seqNo <= SeqOf(a.seqs, KeyOfReading(r)) {
      RecursIff(cfg, a, r);
    }
  }

  ghost predicate Beyond(rs: seq<Reading>, seqs: map<string, nat>)
  {
    forall r :: r in rs ==> r.seqNo > SeqOf(seqs, KeyOfReading(r))
  }

  ghost predicate Ahead(seqs: map<string, nat>, saved: map<string, nat>)
  {
    forall key :: SeqOf(saved, key) <= SeqOf(seqs, key)
  }

  /** All of rs but the unsaved is covered by the saved file. */
  ghost predicate SavedBut(rs: seq<Reading>, unsaved: seq<Reading>, saved: map<string, nat>)
  {
    forall r :: r in rs ==> r in unsaved || r.seqNo <= SeqOf(saved, KeyOfReading(r))
  }

  ghost predicate Within(a: seq<Reading>, b: seq<Reading>) { forall r :: r in a ==> r in b }

  /** What the saved file does not cover is beyond it; of the readings `rs` handed off so
      far, the counters cover all, and the saved file all but the unsaved, unless dirty. */
  ghost predicate Tracks(task: Task, h: History, rs: seq<Reading>)
  {
    && Keyed(task.agg) && Ahead(task.agg.seqs, task.saved)
    && Beyond(h.since, task.saved) && Beyond(h.unsaved, task.saved)
    && CoveredBy(h.since, task.agg.seqs) && CoveredBy(rs, task.agg.seqs)
    && Within(h.unsaved, rs)
    && (task.dirty || SavedBut(rs, h.unsaved, task.saved))
  }

  /** What a clean restart loads covers them exactly under the guard. */
  lemma RestartCovers(task: Task, h: History, rs: seq<Reading>, now: nat)
    requires Tracks(task, h, rs)
    ensures CoveredBy(rs, CleanRestart(task, now).agg.seqs) <==> task.dirty || h.unsaved == []
  {
    hide SeqOf, KeyOfReading;
    if !task.dirty && h.unsaved != [] {
      assert h.unsaved[0] in rs;
      assert h.unsaved[0] in h.unsaved;
    }
  }

  lemma ReadyBeyond(cfg: Config, task: Task, log: seq<Micro>)
    requires Keyed(task.agg) && Ahead(task.agg.seqs, task.saved) && IsLog(cfg, task.agg, log)
    ensures var (agg, ready) := Run(cfg, task.agg, log);
      Beyond(ready, task.saved) && CoveredBy(ready, agg.seqs) && Keyed(agg) && Ahead(agg.seqs, task.saved)
  {
    hide Run, IsLog, KeyOf, Keyed, SeqOf;
    var (agg, ready) := Run(cfg, task.agg, log);
    GaplessNumbering(cfg, task.agg, log, "");
    forall r | r in ready
      ensures r.seqNo > SeqOf(task.saved, KeyOfReading(r)) && r.seqNo <= SeqOf(agg.seqs, KeyOfReading(r))
    {
      RunNumbers(cfg, task.agg, log, r);
    }
    forall key ensures SeqOf(task.saved, key) <= SeqOf(agg.seqs, key) {
      GaplessNumbering(cfg, task.agg, log, key);
    }
  }

  lemma HandedWithin(h: History, task: Task, ready: seq<Reading>, attempt: Attempt)
    requires PendingExact(task, h)
    ensures Within(HandedOff(Queued(task, ready), attempt), h.since + ready)
    ensures attempt.Completed? ==> HandedOff(Queued(task, ready), attempt) == Queued(task, ready)
  {
    NewestAgain(h.since, ready, MAX_PENDING);
    var pending := Queued(task, ready);
    assert Within(pending, h.since + ready);
  }

  lemma WithinKeeps(a: seq<Reading>, b: seq<Reading>, seqs: map<string, nat>, saved: map<string, nat>)
    requires Within(a, b) && CoveredBy(b, seqs) && Beyond(b, saved)
    ensures CoveredBy(a, seqs) && Beyond(a, saved)
  {
    hide SeqOf, KeyOfReading;
  }

  lemma Grow(rs: seq<Reading>, off: seq<Reading>, unsaved: seq<Reading>, seqs: map<string, nat>, saved: map<string, nat>)
    requires CoveredBy(rs, seqs) && CoveredBy(off, seqs)
    requires Beyond(unsaved, saved) && Beyond(off, saved) && Within(unsaved, rs)
    ensures CoveredBy(rs + off, seqs) && SavedBut(rs + off, [], seqs)
    ensures Beyond(unsaved + off, saved) && Within(unsaved + off, rs + off) && Within(unsaved, rs + off)
    ensures SavedBut(rs, unsaved, saved) ==> SavedBut(rs + off, unsaved + off, saved)
  {
    hide SeqOf, KeyOfReading;
  }

  lemma BeyondConcat(a: seq<Reading>, b: seq<Reading>, saved: map<string, nat>)
    requires Beyond(a, saved) && Beyond(b, saved)
    ensures Beyond(a + b, saved)
  {
  }

  lemma EmptyLists(rs: seq<Reading>, seqs: map<string, nat>)
    ensures Beyond([], seqs) && CoveredBy([], seqs) && Within([], rs) && Ahead(seqs, seqs)
    ensures rs + [] == rs
  {
  }

  lemma TickTracks(cfg: Config, task: Task, h: History, rs: seq<Reading>, log: seq<Micro>, attempt: Attempt, now: nat)
    requires Tracks(task, h, rs) && PendingExact(task, h) && Possible(cfg, task, Ticked(log, attempt, now))
    ensures var ev := Ticked(log, attempt, now);
      var off := HandedOff(Queued(task, Run(cfg, task.agg, log).1), attempt);
      Tracks(After(cfg, task, ev), HistoryAfter(cfg, task, h, ev), rs + off)
  {
    var (agg, ready) := Run(cfg, task.agg, log);
    ReadyBeyond(cfg, task, log);
    CountersGrow(cfg, task.agg, log, h.since);
    CountersGrow(cfg, task.agg, log, rs);
    HandedWithin(h, task, ready, attempt);
    var pending := Queued(task, ready);
    var off := HandedOff(pending, attempt);
    assert attempt.Offline? ==> off == [];
    hide Run, IsLog, Keyed, CoveredBy, Beyond, Within, SavedBut, Ahead, Newest, Older, PendingExact, Queued;
    CoverConcat(h.since, ready, agg.seqs);
    BeyondConcat(h.since, ready, task.saved);
    WithinKeeps(off, h.since + ready, agg.seqs, task.saved);
    Grow(rs, off, h.unsaved, agg.seqs, task.saved);
    EmptyLists(rs, agg.seqs);
    EmptyLists(rs, task.saved);
    if attempt.Completed? && pending == [] {
      assert off == [];
    }
    hide HandedOff;
  }

  /** Tracking starts afresh with every life of the task. */
  lemma StepTracksLife(cfg: Config, task: Task, h: History, ev: Event)
    requires Tracks(task, h, h.life) && PendingExact(task, h) && Possible(cfg, task, ev)
    ensures Tracks(After(cfg, task, ev), HistoryAfter(cfg, task, h, ev), HistoryAfter(cfg, task, h, ev).life)
  {
    match ev
    case Ticked(log, attempt, now) =>
      TickTracks(cfg, task, h, h.life, log, attempt, now);
      hide Tracks, Run, IsLog;
    case Restarted(now) =>
      hide KeyOfReading;
  }

  lemma {:induction false} LifeTracked(cfg: Config, task: Task, h: History, events: seq<Event>)
    requires TaskInv(task, h) && Tracks(task, h, h.life) && IsHistory(cfg, task, events)
    ensures var (task', h') := RunTask(cfg, task, h, events); Tracks(task', h', h'.life)
    decreases |events|
  {
    hide Possible, After, HistoryAfter, Tracks, NumbersSafe;
    if events != [] {
      StepKeepsTaskInv(cfg, task, h, events[0]);
      StepTracksLife(cfg, task, h, events[0]);
      LifeTracked(cfg, After(cfg, task, events[0]), HistoryAfter(cfg, task, h, events[0]), events[1..]);
    }
  }

  /** At a clean shutdown, after whatever earlier runs: no number handed off in this run can
      be assigned again by a continuation of the next start if and only if something
      completed since the last save (then the numbers are saved now), or no failed publish
      has handed anything off since the last save or start. Equivalently, the counters
      that the next start loads cover every reading handed off in this run. */
  lemma NumbersReusedIff(cfg: Config, start: nat, events: seq<Event>, now: nat)
    requires IsHistory(cfg, FirstStart(start), events)
    ensures var (task, h) := RunTask(cfg, FirstStart(start), NO_HISTORY, events);
      && (NoneRecurs(cfg, CleanRestart(task, now).agg, h.life) <==> task.dirty || h.unsaved == [])
      && (CoveredBy(h.life, CleanRestart(task, now).agg.seqs) <==> task.dirty || h.unsaved == [])
  {
    LifeTracked(cfg, FirstStart(start), NO_HISTORY, events);
    var (task, h) := RunTask(cfg, FirstStart(start), NO_HISTORY, events);
    var next := CleanRestart(task, now);
    assert Keyed(next.agg);
    hide IsHistory, RunTask, Tracks, Keyed, CleanRestart;
    RestartCovers(task, h, h.life, now);
    NoneRecursIff(cfg, next.agg, h.life);
  }

  /** After no restart of the history can a number that the client ever got be assigned
      again: no continuation from the loaded counters assigns one. */
  ghost predicate RestartsSafe(cfg: Config, task: Task, h: History, events: seq<Event>)
    requires IsHistory(cfg, task, events)
    decreases |events|
  {
    events == [] ||
    (&& (events[0].Restarted? ==> NoneRecurs(cfg, CleanRestart(task, events[0].now).agg, h.handed))
     && RestartsSafe(cfg, After(cfg, task, events[0]), HistoryAfter(cfg, task, h, events[0]), events[1..]))
  }

  ghost predicate RestartsGuarded(cfg: Config, task: Task, h: History, events: seq<Event>)
    requires IsHistory(cfg, task, events)
    decreases |events|
  {
    events == [] ||
    (&& (events[0].Restarted? ==> task.dirty || h.unsaved == [])
     && RestartsGuarded(cfg, After(cfg, task, events[0]), HistoryAfter(cfg, task, h, events[0]), events[1..]))
  }

  lemma StepTracksAll(cfg: Config, task: Task, h: History, ev: Event)
    requires Tracks(task, h, h.handed) && PendingExact(task, h) && Possible(cfg, task, ev)
    requires ev.Restarted? ==> task.dirty || h.unsaved == []
    ensures Tracks(After(cfg, task, ev), HistoryAfter(cfg, task, h, ev), HistoryAfter(cfg, task, h, ev).handed)
  {
    match ev
    case Ticked(log, attempt, now) =>
      TickTracks(cfg, task, h, h.handed, log, attempt, now);
      hide Tracks, Run, IsLog;
    case Restarted(now) =>
      hide KeyOfReading;
  }

  lemma RestartSafe(cfg: Config, task: Task, h: History, now: nat)
    requires Tracks(task, h, h.handed)
    ensures NoneRecurs(cfg, CleanRestart(task, now).agg, h.handed) <==> task.dirty || h.unsaved == []
  {
    assert Keyed(CleanRestart(task, now).agg);
    hide Tracks, Keyed, CleanRestart, NoneRecurs, CoveredBy;
    RestartCovers(task, h, h.handed, now);
    NoneRecursIff(cfg, CleanRestart(task, now).agg, h.handed);
  }

  lemma {:induction false} SafeIffGuarded(cfg: Config, task: Task, h: History, events: seq<Event>)
    requires TaskInv(task, h) && Tracks(task, h, h.handed) && IsHistory(cfg, task, events)
    ensures RestartsSafe(cfg, task, h, events) <==> RestartsGuarded(cfg, task, h, events)
    decreases |events|
  {
    hide Possible, After, HistoryAfter, Tracks, NumbersSafe, NoneRecurs;
    if events != [] {
      var ev := events[0];
      if ev.Restarted? {
        RestartSafe(cfg, task, h, ev.now);
      }
      if !(ev.Restarted? && !task.dirty && h.unsaved != []) {
        StepKeepsTaskInv(cfg, task, h, ev);
        StepTracksAll(cfg, task, h, ev);
        SafeIffGuarded(cfg, After(cfg, task, ev), HistoryAfter(cfg, task, h, ev), events[1..]);
      }
    }
  }

  /** Over whole histories: after no clean restart can a number that the client ever got be
      assigned again in some continuation, if and only if every restart found the numbers
      dirty or no failed publish had handed anything off since the last save or start. */
  lemma NeverReusedIff(cfg: Config, start: nat, events: seq<Event>)
    requires IsHistory(cfg, FirstStart(start), events)
    ensures RestartsSafe(cfg, FirstStart(start), NO_HISTORY, events)
       <==> RestartsGuarded(cfg, FirstStart(start), NO_HISTORY, events)
  {
    SafeIffGuarded(cfg, FirstStart(start), NO_HISTORY, events);
  }

  // ---- what a failed publish can do ------------------------------------------------------------------------

  /** Numbers handed off by a publish that failed part-way are not covered: with one
      reading out, the call failing on the second, and a clean restart, the stream
      starts again at the number already sent. */
  lemma FailedPublishReusesNumber(cfg: Config, s: Sample, t: nat, u: nat)
    requires s.raw
    ensures var first, second := Ticked([Take(s, t, u), Uptime(u)], Failed(1), t), Restarted(t);
      && IsHistory(cfg, FirstStart(t), [first, second])
      && var (task, h) := RunTask(cfg, FirstStart(t), NO_HISTORY, [first, second]);
        && IsLog(cfg, task.agg, [Take(s, t, u)])
        && h.handed == Run(cfg, task.agg, [Take(s, t, u)]).1
        && h.handed != [] && h.handed[0].seqNo == 1
  {
    var a, take, up := FirstStart(t).agg, Take(s, t, u), Uptime(u);
    OneLog(cfg, a, take);
    RunAppend(cfg, a, [take], up);
    assert [take] + [up] == [take, up];
    var ready := Run(cfg, a, [take, up]).1;
    RawReading(cfg, a, s, t, u);
    UptimeStep(cfg, Step(cfg, a, take).0, u);
    hide Run, IsLog, Step, KeyOf;
    assert ready[..1] == Step(cfg, a, take).1;
    var first, second := Ticked([take, up], Failed(1), t), Restarted(t);
    assert [] + ready == ready && Queued(FirstStart(t), ready) == ready;
    var task := After(cfg, FirstStart(t), first);
    var h := HistoryAfter(cfg, FirstStart(t), NO_HISTORY, first);
    assert h.handed == ready[..1];
    TwoEvents(cfg, FirstStart(t), NO_HISTORY, first, second);
  }

  lemma RawReading(cfg: Config, a: Agg, s: Sample, t: nat, u: nat)
    requires s.raw && a.seqs == map[]
    ensures |Step(cfg, a, Take(s, t, u)).1| == 1 && Step(cfg, a, Take(s, t, u)).1[0].seqNo == 1
  {
    hide KeyOf;
  }

  lemma TwoEvents(cfg: Config, task: Task, h: History, first: Event, second: Event)
    requires Possible(cfg, task, first) && Possible(cfg, After(cfg, task, first), second)
    ensures IsHistory(cfg, task, [first, second])
    ensures RunTask(cfg, task, h, [first, second])
         == (After(cfg, After(cfg, task, first), second),
             HistoryAfter(cfg, After(cfg, task, first), HistoryAfter(cfg, task, h, first), second))
  {
    hide Possible, After, HistoryAfter;
    OneEvent(cfg, After(cfg, task, first), HistoryAfter(cfg, task, h, first), second);
    assert [first, second][1..] == [second];
  }

  lemma OneEvent(cfg: Config, task: Task, h: History, ev: Event)
    requires Possible(cfg, task, ev)
    ensures IsHistory(cfg, task, [ev])
    ensures RunTask(cfg, task, h, [ev]) == (After(cfg, task, ev), HistoryAfter(cfg, task, h, ev))
  {
    hide Possible, After, HistoryAfter;
    assert [ev][1..] == [];
  }

  lemma OneLog(cfg: Config, a: Agg, m: Micro)
    requires Enabled(a, m)
    ensures IsLog(cfg, a, [m]) && Run(cfg, a, [m]) == Step(cfg, a, m)
  {
    hide Step;
    assert [m][1..] == [];
    assert Step(cfg, a, m).1 + [] == Step(cfg, a, m).1;
  }

  /** The steps of one tick, in order. */
  function TickLog(samples: seq<Sample>, clock: seq<nat>, uptimeMs: nat, reportUptime: bool, flushed: seq<string>): seq<Micro>
    requires |clock| == |samples|
  {
    Takes(samples, clock, uptimeMs) + Flushes(flushed) + (if reportUptime then [Uptime(uptimeMs)] else [])
  }

  /** The flushed streams are open ones whose window has elapsed; none without a duration. */
  ghost predicate JustElapsed(cfg: Config, taken: Agg, flushed: seq<string>, now: nat)
  {
    forall k :: k in flushed ==>
      cfg.duration.Some? && k in taken.states && now >= taken.states[k].start + cfg.duration.value
  }

  // ---- the task itself -----------------------------------------------------------------------------------------

  /** The client: readings go out one by one until one fails. */
  class Client {
    ghost var handed: seq<Reading>

    constructor ()
      ensures handed == []
    {
      handed := [];
    }

    method IsConnected() returns (connected: bool)
    {
      connected := *;
    }

    method PublishMetrics(metrics: seq<Reading>) returns (ok: bool, ghost n: nat)
      modifies this
      ensures n <= |metrics| && (ok <==> n == |metrics|) && handed == old(handed) + metrics[..n]
    {
      n := 0;
      for i := 0 to |metrics|
        invariant n == i && handed == old(handed) + metrics[..i]
      {
        var sent: bool := *;
        if !sent {
          return false, n;
        }
        handed := handed + [metrics[i]];
        n := n + 1;
      }
      ok := true;
    }
  }

  class MetricsTask {
    const agg: Aggregator
    var pending: seq<Reading>
    var seqDirty: bool
    var lastSeqSave: nat
    var saved: map<string, nat>

    ghost function View(): Task
      reads this, agg
    {
      Task(agg.View(), pending, seqDirty, lastSeqSave, saved)
    }

    constructor (cfg: Config, saved: map<string, nat>, now: nat)
      ensures View() == Task(Agg(map[], saved), [], false, now, saved) && fresh(agg) && agg.cfg == cfg
    {
      agg := new Aggregator(cfg, saved);
      pending, seqDirty, lastSeqSave := [], false, now;
      this.saved := saved;
    }

    /** Ingest the samples, and emit the uptime directly as a raw reading. */
    method Collect(samples: seq<Sample>, clock: seq<nat>, uptimeMs: nat, reportUptime: bool, now: nat)
      returns (ready: seq<Reading>, ghost flushed: seq<string>, ghost log: seq<Micro>)
      requires |clock| == |samples|
      modifies agg
      ensures log == TickLog(samples, clock, uptimeMs, reportUptime, flushed)
      ensures IsLog(agg.cfg, old(agg.View()), log)
      ensures Run(agg.cfg, old(agg.View()), log) == (agg.View(), ready)
      ensures agg.cfg.duration.Some? ==> forall k :: k in agg.states ==> now < agg.states[k].start + agg.cfg.duration.value
      ensures IsLog(agg.cfg, old(agg.View()), Takes(samples, clock, uptimeMs))
      ensures JustElapsed(agg.cfg, Run(agg.cfg, old(agg.View()), Takes(samples, clock, uptimeMs)).0, flushed, now)
    {
      hide IsLog, Run, Step, KeyOf;
      ghost var a0 := agg.View();
      ready, flushed := agg.Ingest(samples, clock, now, uptimeMs);
      log := Takes(samples, clock, uptimeMs) + Flushes(flushed);
      assert log + [] == log;
      if reportUptime {
        UptimeStep(agg.cfg, agg.View(), uptimeMs);
        RunAppend(agg.cfg, a0, log, Uptime(uptimeMs));
        var n := agg.NextSeq("uptime_ms");
        ready := ready + [Reading("uptime_ms", AGG_NONE, [], uptimeMs as real, None, None, None, n, uptimeMs)];
        log := log + [Uptime(uptimeMs)];
      }
    }

    /** Publish what is pending; on success clear it and save the numbers if a minute
        has passed. A failed call leaves the queue as it is, to be sent again. Only an
        empty queue or a missing connection makes it not try. */
    method Publish(now: nat, client: Client) returns (connected: bool, ghost attempt: Attempt)
      requires client as object != this && client as object != agg
      modifies this, client
      ensures View() == Attempted(old(View()), attempt, now) && AttemptFits(old(pending), attempt)
      ensures client.handed == old(client.handed) + HandedOff(old(pending), attempt)
      ensures attempt.Offline? <==> old(pending) == [] || !connected
    {
      attempt, connected := Offline, false;
      if pending == [] {
        return;
      }
      connected := client.IsConnected();
      if !connected {
        return;
      }
      var ok, n := client.PublishMetrics(pending);
      attempt := if ok then Completed else Failed(n);
      if ok {
        pending := [];
        seqDirty := true;
        if now >= lastSeqSave + SEQ_SAVE_INTERVAL {
          saved := agg.seqs;
          lastSeqSave := now;
          seqDirty := false;
        }
      }
    }

    /** The tick arm of the loop: collect, append and cap, publish. All samples are taken in
        order, exactly elapsed windows are flushed, the uptime is reported last; the client
        is tried whenever something is queued and there is a connection. */
    method OnTick(samples: seq<Sample>, clock: seq<nat>, uptimeMs: nat, reportUptime: bool, ingested: nat, now: nat, client: Client)
      returns (connected: bool, ghost flushed: seq<string>, ghost log: seq<Micro>, ghost attempt: Attempt)
      requires |clock| == |samples| && client as object != this && client as object != agg
      modifies this, agg, client
      ensures log == TickLog(samples, clock, uptimeMs, reportUptime, flushed)
      ensures IsLog(agg.cfg, old(agg.View()), log)
      ensures IsLog(agg.cfg, old(agg.View()), Takes(samples, clock, uptimeMs))
      ensures JustElapsed(agg.cfg, Run(agg.cfg, old(agg.View()), Takes(samples, clock, uptimeMs)).0, flushed, ingested)
      ensures agg.cfg.duration.Some? ==>
        forall k :: k in agg.states ==> ingested < agg.states[k].start + agg.cfg.duration.value
      ensures var ready := Run(agg.cfg, old(agg.View()), log).1; var queue := Queued(old(View()), ready);
        && AttemptFits(queue, attempt) && (attempt.Offline? <==> queue == [] || !connected)
        && View() == Tick(old(View()), Run(agg.cfg, old(agg.View()), log).0, ready, attempt, now)
        && client.handed == old(client.handed)
                          + (match attempt case Offline => [] case Failed(n) => queue[..n] case Completed => queue)
      ensures |log| == |samples| + |flushed| + (if reportUptime then 1 else 0)
      ensures forall i :: 0 <= i < |samples| ==> log[i] == Take(samples[i], clock[i], uptimeMs)
      ensures forall i :: |samples| <= i < |samples| + |flushed| ==> log[i] == Flush(flushed[i - |samples|])
      ensures reportUptime ==> log[|log| - 1] == Uptime(uptimeMs)
    {
      hide IsLog, Run, Step, KeyOf, JustElapsed, TickLog, Takes;
      var ready;
      ready, flushed, log := Collect(samples, clock, uptimeMs, reportUptime, ingested);
      pending := pending + ready;
      if |pending| > MAX_PENDING {
        var dropN := |pending| - MAX_PENDING;
        pending := pending[dropN..];
      }
      ghost var queued := View();
      assert queued == old(View()).(agg := agg.View(), pending := Queued(old(View()), ready));
      hide Queued, Newest, Attempted, SeqOf;
      connected, attempt := Publish(now, client);
      TickLogShape(samples, clock, uptimeMs, reportUptime, flushed);
    }

    /** After the loop: always save on clean shutdown if anything is unsaved. */
    method OnShutdown(ghost now: nat)
      modifies this`saved
      ensures Task(Agg(map[], saved), [], false, now, saved) == CleanRestart(old(View()), now)
    {
      if seqDirty {
        saved := agg.seqs;
      }
    }
  }

  lemma TickLogShape(samples: seq<Sample>, clock: seq<nat>, uptimeMs: nat, reportUptime: bool, flushed: seq<string>)
    requires |clock| == |samples|
    ensures var log := TickLog(samples, clock, uptimeMs, reportUptime, flushed);
      && |log| == |samples| + |flushed| + (if reportUptime then 1 else 0)
      && (forall i :: 0 <= i < |samples| ==> log[i] == Take(samples[i], clock[i], uptimeMs))
      && (forall i :: |samples| <= i < |samples| + |flushed| ==> log[i] == Flush(flushed[i - |samples|]))
      && (reportUptime ==> log[|log| - 1] == Uptime(uptimeMs))
  {
  }

  lemma UptimeStep(cfg: Config, a: Agg, uptimeMs: nat)
    ensures Enabled(a, Uptime(uptimeMs))
    ensures Step(cfg, a, Uptime(uptimeMs))
         == (Bump(a, "uptime_ms"), [Reading("uptime_ms", AGG_NONE, [], uptimeMs as real, None, None, None,
                                            SeqOf(a.seqs, "uptime_ms") + 1, uptimeMs)])
  {
  }
}
