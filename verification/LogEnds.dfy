/** What single activities of the log pipeline achieve from beginning to end: taking in an
    entry, the flush at shutdown, cancelling a tick, exit and restart; and which steps
    can put an entry into which column of the ledger (src/orchestrator.rs:88-136). */
module LogEnds {
  import opened Prelude
  import opened LogEntries
  import opened SpoolNames
  import opened Spool
  import opened Orchestrator
  import opened LogLedger
  import opened LogRuns
  import opened LogHolder
  import PublishTick

  lemma {:induction false} RunSplit(cfg: Config, s: State, a: seq<Event>, b: seq<Event>)
    requires cfg.Valid() && IsRun(cfg, s, a + b)
    ensures IsRun(cfg, s, a) && IsRun(cfg, Run(cfg, s, a).state, b)
    ensures Run(cfg, s, a + b).state == Run(cfg, Run(cfg, s, a).state, b).state
    ensures Run(cfg, s, a + b).bill == Add(Run(cfg, s, a).bill, Run(cfg, Run(cfg, s, a).state, b).bill)
    decreases |a|
  {
    hide Step, Enabled;
    if a == [] {
      assert a + b == b;
    } else {
      assert (a + b)[1..] == a[1..] + b && (a + b)[0] == a[0];
      RunSplit(cfg, Step(cfg, s, a[0]).state, a[1..], b);
    }
    RunConcat(cfg, s, a, b);
  }

  /** A lock section that is one event, then the holder's own steps, then the release. */
  lemma SectionReachesGoal(cfg: Config, s: State, start: Event, more: seq<Event>)
    requires cfg.Valid() && IsRun(cfg, s, [start] + more + [Release]) && Only(more, {Holding})
    requires Settled(cfg, Step(cfg, s, start).state)
    ensures IsRun(cfg, s, [start] + more) && Enabled(cfg, Run(cfg, s, [start] + more).state, Release)
    ensures var u, t := Step(cfg, s, start).state, Run(cfg, s, [start] + more).state;
      && CanRelease(t) && (t.memory, t.files) == Goal(cfg, u)
      && t.lock == Held(u.lock.owner, [], Ready, []) && t.pub == u.pub
    ensures Run(cfg, s, [start] + more + [Release]).state == Step(cfg, Run(cfg, s, [start] + more).state, Release).state
  {
    hide Step, Enabled, Settled, Goal, KindOf;
    RunSplit(cfg, s, [start] + more, [Release]);
    RunSplit(cfg, s, [start], more);
    FirstOfOne(cfg, s, start);
    FirstOfOne(cfg, Run(cfg, s, [start] + more).state, Release);
    ReleaseEnabled(cfg, Run(cfg, s, [start] + more).state);
    HolderReachesGoal(cfg, Step(cfg, s, start).state, more);
  }

  lemma FirstOfOne(cfg: Config, s: State, ev: Event)
    requires cfg.Valid() && IsRun(cfg, s, [ev])
    ensures Enabled(cfg, s, ev) && Run(cfg, s, [ev]) == Step(cfg, s, ev)
  {
    hide Step, Enabled;
    OneStep(cfg, s, ev);
  }

  lemma ReleaseEnabled(cfg: Config, s: State)
    requires Enabled(cfg, s, Release)
    ensures CanRelease(s)
  {
  }

  // ---- taking in an entry ------------------------------------------------------------------------

  lemma IngestSettles(cfg: Config, s: State, e: LogEntry)
    requires cfg.Valid() && CanIngest(s) && |s.memory| <= cfg.buffer.memoryMax
    ensures var u := Step(cfg, s, Ingest(e)).state;
      && Settled(cfg, u) && u.lock.owner.Ingestion? && u.pub == s.pub
      && Goal(cfg, u) == AfterPushes(cfg.buffer, cfg.codec, s.memory, s.files, [e])
  {
    hide TotalBytes, AfterPushes, WrittenAll, IsChunkFile;
  }

  lemma OnePush(cfg: BufferConfig, codec: Codec, memory: seq<LogEntry>, files: Files, e: LogEntry)
    requires cfg.Valid()
    ensures AfterPushes(cfg, codec, memory, files, [e])
         == if |memory| < cfg.memoryMax then (memory + [e], files) else ([e], FlushedFiles(cfg, codec, memory, files))
  {
    hide FlushedFiles;
    assert [e][1..] == [];
  }

  lemma IngestEnabled(cfg: Config, s: State, e: LogEntry)
    requires Enabled(cfg, s, Ingest(e))
    ensures CanIngest(s)
  {
  }

  lemma PlainRelease(cfg: Config, s: State)
    requires cfg.Valid() && CanRelease(s) && (s.lock.owner.Ingestion? || s.lock.owner.FinalFlush?)
    ensures Step(cfg, s, Release).state == s.(lock := Free, pub := if s.lock.owner.Ingestion? then s.pub else Stopped)
  {
  }

  /** An entry that arrives is at the end of memory when the lock is released; if memory was
      full, all of it has been written to the directory before, and nothing else happened. */
  lemma IngestKeepsEntry(cfg: Config, s: State, e: LogEntry, more: seq<Event>)
    requires cfg.Valid() && |s.memory| <= cfg.buffer.memoryMax
    requires IsRun(cfg, s, [Ingest(e)] + more + [Release]) && Only(more, {Holding})
    ensures var t := Run(cfg, s, [Ingest(e)] + more + [Release]).state;
      && t.lock.Free? && t.pub == s.pub
      && (|s.memory| < cfg.buffer.memoryMax ==> t.memory == s.memory + [e] && t.files == s.files)
      && (|s.memory| >= cfg.buffer.memoryMax ==>
            t.memory == [e] && t.files == FlushedFiles(cfg.buffer, cfg.codec, s.memory, s.files))
  {
    var events := [Ingest(e)] + more + [Release];
    assert events[0] == Ingest(e) && Enabled(cfg, s, events[0]);
    IngestEnabled(cfg, s, e);
    IngestSettles(cfg, s, e);
    hide Step, Enabled, Settled, Goal, FlushedFiles, AfterPushes, IsRun, Run;
    SectionReachesGoal(cfg, s, Ingest(e), more);
    OnePush(cfg.buffer, cfg.codec, s.memory, s.files, e);
    PlainRelease(cfg, Run(cfg, s, [Ingest(e)] + more).state);
  }

  // ---- the flush at shutdown -----------------------------------------------------------------------

  lemma FinalFlushSettles(cfg: Config, s: State)
    requires cfg.Valid() && CanFinalFlush(s) && |s.memory| <= cfg.buffer.memoryMax
    ensures var u := Step(cfg, s, Event.FinalFlush).state;
      && Settled(cfg, u) && u.lock.owner.FinalFlush? && u.memory == [] && u.lock.pushes == []
      && Goal(cfg, u) == ([], FlushedFiles(cfg.buffer, cfg.codec, s.memory, s.files))
  {
    ChunksNotEmpty(s.memory, cfg.buffer.chunkMax);
    hide TotalBytes, Written, IsChunkFile, Chunks;
    if s.memory == [] {
      assert Chunks(s.memory, cfg.buffer.chunkMax) == [] by { NoChunks(cfg.buffer.chunkMax); }
    }
  }

  lemma NoChunks(k: nat)
    requires k > 0
    ensures Chunks<LogEntry>([], k) == []
  {
  }

  lemma FlushEnabled(cfg: Config, s: State)
    requires Enabled(cfg, s, Event.FinalFlush)
    ensures CanFinalFlush(s)
  {
  }

  /** The flush at shutdown, followed by the lock holder's own steps up to the release,
      leaves nothing in memory and everything that was there written to the directory,
      as one flush of the buffer writes it; and the daemon has stopped. */
  lemma ShutdownFlushesAll(cfg: Config, s: State, more: seq<Event>)
    requires cfg.Valid() && |s.memory| <= cfg.buffer.memoryMax
    requires IsRun(cfg, s, [Event.FinalFlush] + more + [Release]) && Only(more, {Holding})
    ensures var t := Run(cfg, s, [Event.FinalFlush] + more + [Release]).state;
      t.lock.Free? && t.pub.Stopped? && t.memory == [] && t.files == FlushedFiles(cfg.buffer, cfg.codec, s.memory, s.files)
  {
    var events := [Event.FinalFlush] + more + [Release];
    assert events[0] == Event.FinalFlush && Enabled(cfg, s, events[0]);
    FlushEnabled(cfg, s);
    FinalFlushSettles(cfg, s);
    hide Step, Enabled, Settled, Goal, FlushedFiles, AfterPushes, IsRun, Run;
    SectionReachesGoal(cfg, s, Event.FinalFlush, more);
    PlainRelease(cfg, Run(cfg, s, [Event.FinalFlush] + more).state);
  }

  /** The publisher waits to shut down and nobody holds the lock: there are steps that carry
      the final flush through, whatever is in memory, as long as file numbers last. */
  lemma ShutdownHappens(cfg: Config, s: State) returns (more: seq<Event>)
    requires cfg.Valid() && s.pub.Stopping? && s.lock.Free? && NextNumber(s.files) + |s.memory| <= U64
    ensures IsRun(cfg, s, [Event.FinalFlush] + more + [Release]) && Only(more, {Holding})
  {
    var u := FlushBegun(cfg, s);
    var t;
    PublishTick.FewerChunksThanEntries(s.memory, cfg.buffer.chunkMax);
    hide NextNumber, Chunks, WrittenAll, PublishTick.Moved, IsRun, Run;
    if u.lock.slices == [] {
      more, t := [], u;
      PublishTick.DidNothing(cfg, u, {Holding});
      assert PublishTick.Moved(cfg, u, more, t, {Holding}) by { assert NOTHING.handed == []; }
    } else {
      more, t := PublishTick.FlushSteps(cfg, u);
    }
    Finishes(cfg, s, Event.FinalFlush, u, more, t);
  }

  lemma FlushBegun(cfg: Config, s: State) returns (u: State)
    requires cfg.Valid() && s.pub.Stopping? && s.lock.Free?
    ensures Enabled(cfg, s, Event.FinalFlush) && Step(cfg, s, Event.FinalFlush).state == u
    ensures u.lock.Held? && u.lock.slices == Chunks(s.memory, cfg.buffer.chunkMax) && u.lock.pushes == [] && u.files == s.files
    ensures u.lock.stage == if u.lock.slices == [] then Ready else SizeCheck
  {
    u := DoFinalFlush(cfg, s).state;
  }

  /** Whenever the lock is free, an entry can be taken in, the flush for it included. */
  lemma IngestHappens(cfg: Config, s: State, e: LogEntry) returns (more: seq<Event>)
    requires cfg.Valid() && s.lock.Free? && NextNumber(s.files) + |s.memory| <= U64
    ensures IsRun(cfg, s, [Ingest(e)] + more + [Release]) && Only(more, {Holding})
  {
    var u := IngestBegun(cfg, s, e);
    hide NextNumber, Chunks, WrittenAll, PublishTick.Moved, IsRun, Run, PushedMemory, FlushedFiles, TotalBytes;
    var t;
    more, t := PublishTick.PushSteps(cfg, u);
    Finishes(cfg, s, Ingest(e), u, more, t);
  }

  lemma IngestBegun(cfg: Config, s: State, e: LogEntry) returns (u: State)
    requires cfg.Valid() && s.lock.Free?
    ensures Enabled(cfg, s, Ingest(e)) && Step(cfg, s, Ingest(e)).state == u
    ensures CanPush(u) && u.lock.slices == [] && u.lock.pushes == [e] && u.files == s.files && u.memory == s.memory
  {
    u := DoIngest(s, e).state;
  }

  /** A section's first step, the holder's steps, and the release, put together. */
  lemma Finishes(cfg: Config, s: State, start: Event, u: State, more: seq<Event>, t: State)
    requires cfg.Valid() && Enabled(cfg, s, start) && Step(cfg, s, start).state == u
    requires PublishTick.Moved(cfg, u, more, t, {Holding})
    requires t.lock.Held? && t.lock.stage.Ready? && t.lock.pushes == []
    ensures IsRun(cfg, s, [start] + more + [Release]) && Only(more, {Holding})
  {
    assert Enabled(cfg, t, Release);
    hide Step, Enabled, Run, IsRun, KindOf;
    OneStep(cfg, s, start);
    RunConcat(cfg, s, [start], more);
    Extend(cfg, s, [start] + more, Release);
  }

  /** After the final flush began: nothing is in memory or waiting to be pushed, and the
      publisher holds nothing. */
  ghost predicate ShuttingDown(s: State)
  {
    && s.memory == [] && (s.pub.Stopping? || s.pub.Stopped?)
    && (s.lock.Held? ==> s.lock.owner.FinalFlush? && s.lock.pushes == [])
    && (s.pub.Stopping? ==> s.lock.Held?)
  }

  /** What such a state holds of an entry: its slices still to be written, and the disk. */
  ghost predicate OnlySlicesAndDisk(cfg: Config, s: State, x: LogEntry)
  {
    Holds(cfg, s, x) == Count(Slices(s), x) + OnDisk(cfg.codec, s.files, x) && Copies(s) == [] && Sent(s) == []
  }

  lemma StepKeepsShuttingDown(cfg: Config, s: State, ev: Event)
    requires cfg.Valid() && Enabled(cfg, s, ev) && LockInv(cfg, s) && ShuttingDown(s) && !ev.Ingest? && !ev.Restart?
    ensures ShuttingDown(Step(cfg, s, ev).state)
    ensures var b := Step(cfg, s, ev).bill; b == NOTHING.(evicted := b.evicted, flushLost := b.flushLost)
  {
    hide ChunkName, TmpName, IsChunkFile, SeqNumber, TotalBytes, NextNumber, Flatten, Chunks, EntriesAt;
  }

  lemma {:induction false} StaysShuttingDown(cfg: Config, base: Files, s: State, events: seq<Event>)
    requires cfg.Valid() && Inv(cfg, base, s) && IsRun(cfg, s, events) && ShuttingDown(s)
    requires forall ev :: ev in events ==> !ev.Ingest? && !ev.Restart?
    ensures ShuttingDown(Run(cfg, s, events).state)
    ensures var b := Run(cfg, s, events).bill; b == NOTHING.(evicted := b.evicted, flushLost := b.flushLost)
    decreases |events|
  {
    if events != [] {
      hide ShuttingDown, Step, Enabled, PubInv, ChunksWhole, LockInv;
      assert events[0] in events;
      StepKeepsShuttingDown(cfg, s, events[0]);
      StepKeepsInv(cfg, base, s, events[0]);
      StaysShuttingDown(cfg, base, Step(cfg, s, events[0]).state, events[1..]);
    }
  }

  lemma ShutdownParts(cfg: Config, s: State, x: LogEntry)
    requires ShuttingDown(s)
    ensures OnlySlicesAndDisk(cfg, s, x)
    ensures s.lock.Free? ==> DoRestart(s).bill.lostAtExit == []
  {
    hide OnDisk, Flatten;
  }

  lemma FlushStarts(cfg: Config, s: State)
    requires cfg.Valid() && Enabled(cfg, s, Event.FinalFlush)
    ensures ShuttingDown(Step(cfg, s, Event.FinalFlush).state) && Step(cfg, s, Event.FinalFlush).bill == NOTHING
    ensures Sent(s) == [] && Copies(s) == [] && Drained(s.pub) == [] && Slices(s) == [] && Pushes(s) == []
  {
    hide Chunks;
  }

  /** From the final flush on, as long as no late entry arrives, every entry that was in
      memory or on disk is in the slices being written, on disk, evicted, or lost to a
      failed flush; and once the lock is released an exit loses nothing. */
  lemma ShutdownLosesNothing(cfg: Config, base: Files, s: State, events: seq<Event>, x: LogEntry)
    requires cfg.Valid() && Inv(cfg, base, s) && IsRun(cfg, s, [Event.FinalFlush] + events)
    requires forall ev :: ev in events ==> !ev.Ingest? && !ev.Restart?
    ensures var Outcome(t, bill) := Run(cfg, s, [Event.FinalFlush] + events);
      && Count(s.memory, x) + OnDisk(cfg.codec, s.files, x)
         == Count(Slices(t), x) + OnDisk(cfg.codec, t.files, x) + Count(bill.evicted, x) + Count(bill.flushLost, x)
      && (t.lock.Free? ==> t.pub.Stopped? && DoRestart(t).bill.lostAtExit == [])
  {
    RunSplit(cfg, s, [Event.FinalFlush], events);
    hide Run, IsRun, Step, Enabled, Inv, OnDisk, DoRestart;
    FirstOfOne(cfg, s, Event.FinalFlush);
    FlushStarts(cfg, s);
    var u := Step(cfg, s, Event.FinalFlush).state;
    StepKeepsInv(cfg, base, s, Event.FinalFlush);
    StaysShuttingDown(cfg, base, u, events);
    RunKeeps(cfg, base, s, [Event.FinalFlush] + events, x);
    var t, bill := Run(cfg, s, [Event.FinalFlush] + events).state, Run(cfg, s, [Event.FinalFlush] + events).bill;
    ShutdownParts(cfg, t, x);
    JustEvictedOrLost(bill, x);
  }

  lemma JustEvictedOrLost(bill: Ledger, x: LogEntry)
    requires bill == NOTHING.(evicted := bill.evicted, flushLost := bill.flushLost)
    ensures Left(bill, x) == Count(bill.evicted, x) + Count(bill.flushLost, x)
    ensures Count(bill.accepted, x) == 0 && Count(bill.surplus, x) == 0
  {
  }

  // ---- cancelling, exit and restart ---------------------------------------------------------------

  /** Cancelling a tick at shutdown changes nothing but what dies with it: of a drained
      vector the part the client does not have, of a failed batch all of it, and nothing
      of a chunk. */
  lemma CancelLosesExactly(cfg: Config, s: State)
    requires cfg.Valid() && Enabled(cfg, s, Cancel) && PubInv(cfg, s)
    ensures var Outcome(t, bill) := Step(cfg, s, Cancel);
      && t == s.(pub := Stopping)
      && bill.cancelled == (match s.pub case Memory(vec, sent) => vec[sent..] case FailedBatch(batch) => batch case _ => [])
      && (s.pub.Memory? ==> bill.settled == s.pub.vec[..s.pub.sent])
  {
    hide ChunkUntouched;
  }

  /** The publish future can be cancelled wherever it waits: for the lock or for a hand-off. */
  lemma CancelWhereverItWaits(cfg: Config, s: State)
    ensures Enabled(cfg, s, Cancel) <==>
      s.pub.Idle? || s.pub.Looking? || s.pub.Memory? || s.pub.FailedBatch? || s.pub.Disk? || s.pub.FailedTail?
  {
  }

  /** A cancelled tick can lose an entry for good, whatever the configuration: one that was
      drained, when the client has not got it, is nowhere afterwards. */
  lemma CancelledForGood(cfg: Config, s: State, e: LogEntry) returns (events: seq<Event>)
    requires cfg.Valid() && s == State(map[], [], false, Free, Idle, false, map[])
    ensures IsRun(cfg, s, events)
    ensures var Outcome(t, bill) := Run(cfg, s, events);
      t.files == map[] && t.memory == [] && t.lock.Free? && bill.accepted == bill.cancelled == [e] && bill.handed == []
  {
    var s1 := s.(memory := [e]);
    assert [e][1..] == [] && [] + [e] == [e];
    events := [Ingest(e), Push, Release];
    IngestSteps(cfg, s, e);
    CancelSteps(cfg, s1, e);
    hide Step, Enabled, Run, IsRun;
    RunConcat(cfg, s, events, [Drain, Cancel]);
    events := events + [Drain, Cancel];
    hide *;
    AddedUp(e);
  }

  lemma AddedUp(e: LogEntry)
    ensures Add(NOTHING.(accepted := [e]), NOTHING.(cancelled := [e])) == NOTHING.(accepted := [e], cancelled := [e])
  {
  }

  lemma IngestSteps(cfg: Config, s: State, e: LogEntry)
    requires cfg.Valid() && s.lock.Free? && s.memory == []
    ensures var events := [Ingest(e), Push, Release];
      IsRun(cfg, s, events) && Run(cfg, s, events) == Outcome(s.(memory := [e]), NOTHING.(accepted := [e]))
  {
    var u := s.(lock := Held(Ingestion, [], Ready, [e]));
    var v := u.(memory := [e], lock := Held(Ingestion, [], Ready, []));
    assert [e][1..] == [] && [] + [e] == [e];
    assert Enabled(cfg, s, Ingest(e)) && Step(cfg, s, Ingest(e)) == Outcome(u, NOTHING.(accepted := [e]));
    assert Enabled(cfg, u, Push) && Step(cfg, u, Push) == Outcome(v, NOTHING);
    assert Enabled(cfg, v, Release) && Step(cfg, v, Release) == Outcome(s.(memory := [e]), NOTHING);
    hide Step, Enabled, Run, IsRun;
    OneStep(cfg, s, Ingest(e));
    Extend(cfg, s, [Ingest(e)], Push);
    assert [Ingest(e)] + [Push] == [Ingest(e), Push];
    Extend(cfg, s, [Ingest(e), Push], Release);
    assert [Ingest(e), Push] + [Release] == [Ingest(e), Push, Release];
    AddNothing(NOTHING.(accepted := [e]));
  }

  lemma CancelSteps(cfg: Config, s: State, e: LogEntry)
    requires cfg.Valid() && s.lock.Free? && s.pub.Idle? && s.memory == [e]
    ensures IsRun(cfg, s, [Drain, Cancel])
    ensures Run(cfg, s, [Drain, Cancel]) == Outcome(s.(memory := [], pub := Stopping), NOTHING.(cancelled := [e]))
  {
    var u := s.(pub := Memory([e], 0), memory := []);
    DrainOne(cfg, s, e);
    CancelOne(cfg, u, e);
    hide Step, Enabled, Run, IsRun;
    OneStep(cfg, s, Drain);
    Extend(cfg, s, [Drain], Cancel);
    assert [Drain] + [Cancel] == [Drain, Cancel];
    AddNothing(NOTHING.(cancelled := [e]));
  }

  lemma DrainOne(cfg: Config, s: State, e: LogEntry)
    requires cfg.Valid() && s.lock.Free? && s.pub.Idle? && s.memory == [e]
    ensures Enabled(cfg, s, Drain) && Step(cfg, s, Drain) == Outcome(s.(pub := Memory([e], 0), memory := []), NOTHING)
  {
  }

  lemma CancelOne(cfg: Config, u: State, e: LogEntry)
    requires cfg.Valid() && u.pub == Memory([e], 0)
    ensures Enabled(cfg, u, Cancel) && Step(cfg, u, Cancel) == Outcome(u.(pub := Stopping), NOTHING.(cancelled := [e]))
  {
    assert [e][..0] == [] && [e][0..] == [e];
  }

  /** After an exit at any point the next start finds the same directory and nothing else,
      and everything that was only in memory is lost. */
  lemma RestartStartsAfresh(cfg: Config, s: State, x: LogEntry)
    requires cfg.Valid() && PubInv(cfg, s)
    ensures Enabled(cfg, s, Restart)
    ensures var Outcome(t, bill) := Step(cfg, s, Restart);
      && Initial(t.(origin := map[])) && t.files == s.files && t.origin == s.origin
      && Count(bill.lostAtExit, x) + Count(if s.pub.Memory? then s.pub.vec[..s.pub.sent] else [], x)
         == Count(s.memory, x) + Count(Slices(s), x) + Count(Pushes(s), x) + Count(Drained(s.pub), x)
  {
    ConcatFour(s.memory, Slices(s), Pushes(s), Dropped(s), x);
    DrainedSplits(s, x);
    hide Slices, Pushes, Count, Flatten, IsChunkFile;
  }

  /** The process can end in the middle of writing a chunk, after any number of bytes: what is
      left is that much of the temporary file, and the chunks as they were. */
  lemma TornWriteIsAside(cfg: Config, s: State, n: nat, k: nat)
    requires cfg.Valid() && s.lock.Held? && s.lock.slices != [] && s.lock.stage == Numbered(n)
    requires k <= |cfg.codec.encode(s.lock.slices[0])|
    ensures IsRun(cfg, s, [WriteTmp(k), Restart])
    ensures var t := Run(cfg, s, [WriteTmp(k), Restart]).state;
      && t.files == s.files[TmpName(n) := cfg.codec.encode(s.lock.slices[0])[..k]]
      && ChunkFiles(t.files) == ChunkFiles(s.files) && NextNumber(t.files) == NextNumber(s.files)
  {
    var data := cfg.codec.encode(s.lock.slices[0])[..k];
    TornWrite(cfg, s, n, k);
    TmpNameIgnored(n);
    PutAside(s.files, TmpName(n), data);
    hide Step, Enabled, Run, IsRun, ChunkFiles, NextNumber, TmpName;
    OneStep(cfg, s, WriteTmp(k));
    Extend(cfg, s, [WriteTmp(k)], Restart);
    assert [WriteTmp(k)] + [Restart] == [WriteTmp(k), Restart];
  }

  lemma TornWrite(cfg: Config, s: State, n: nat, k: nat)
    requires cfg.Valid() && s.lock.Held? && s.lock.slices != [] && s.lock.stage == Numbered(n)
    requires k <= |cfg.codec.encode(s.lock.slices[0])|
    ensures Enabled(cfg, s, WriteTmp(k))
    ensures var t := Step(cfg, s, WriteTmp(k)).state;
      && t.files == s.files[TmpName(n) := cfg.codec.encode(s.lock.slices[0])[..k]]
      && Enabled(cfg, t, Restart) && Step(cfg, t, Restart).state.files == t.files
  {
    hide TmpName, IsChunkFile;
  }

  /** Sequence numbers and crash-dump state can be written at any time, under their own names
      in the same directory; they are neither chunks nor counted in the numbering, and they
      do count for its size. */
  lemma BookkeepingAside(cfg: Config, s: State, name: string, data: seq<Byte>)
    requires cfg.Valid()
    requires name in {"metrics_seq.cbor", "metrics_seq.cbor.tmp", "crashdump_state.json", "crashdump_state.json.tmp"}
    ensures Enabled(cfg, s, Bookkeep(name, data)) && Step(cfg, s, Bookkeep(name, data)).state == s.(files := s.files[name := data])
    ensures var t := Step(cfg, s, Bookkeep(name, data)).state;
      && ChunkFiles(t.files) == ChunkFiles(s.files) && NextNumber(t.files) == NextNumber(s.files)
      && TotalBytes(t.files) == TotalBytes(s.files - {name}) + |data|
  {
    BookkeepStep(cfg, s, name, data);
    BookkeepingIsNotSpool(name);
    hide *;
    PutAside(s.files, name, data);
  }

  lemma BookkeepStep(cfg: Config, s: State, name: string, data: seq<Byte>)
    requires cfg.Valid()
    requires name in {"metrics_seq.cbor", "metrics_seq.cbor.tmp", "crashdump_state.json", "crashdump_state.json.tmp"}
    ensures name in BOOKKEEPING
    ensures Enabled(cfg, s, Bookkeep(name, data)) && Step(cfg, s, Bookkeep(name, data)).state == s.(files := s.files[name := data])
  {
  }

  lemma PutAside(files: Files, name: string, data: seq<Byte>)
    requires !IsChunkFile(name) && SeqNumber(name) == None
    ensures ChunkFiles(files[name := data]) == ChunkFiles(files) && NextNumber(files[name := data]) == NextNumber(files)
    ensures TotalBytes(files[name := data]) == TotalBytes(files - {name}) + |data|
  {
    hide IsChunkFile, SeqNumber, TotalBytes, NextNumber;
    var t := files[name := data];
    TotalBytesSplit(t, name);
    assert t - {name} == files - {name};
    MaxIs(files);
    assert t.Keys == files.Keys + {name};
    assert IsMaxSeq(t.Keys, NextNumber(files) - 1);
    NextNumberUnique(t, NextNumber(files) - 1);
  }

  // ---- columns and their causes ----------------------------------------------------------------------

  /** The entries that a run takes in, in order. */
  function Arrivals(events: seq<Event>): seq<LogEntry>
  {
    if events == [] then []
    else (if events[0].Ingest? then [events[0].e] else []) + Arrivals(events[1..])
  }

  /** Each column can be billed only by its own kinds of steps. */
  lemma StepCauses(cfg: Config, s: State, ev: Event)
    requires cfg.Valid() && Enabled(cfg, s, ev)
    ensures var bill := Step(cfg, s, ev).bill;
      && bill.accepted == (if ev.Ingest? then [ev.e] else [])
      && |bill.handed| == (if ev.HandOff? then 1 else 0)
      && (bill.settled != [] ==> ev.BatchDone? || ev.Delete? || ev.Release? || ev.Cancel? || ev.Restart?)
      && (bill.resent != [] ==> ev.Fail? || ev.Cancel? || ev.Restart?)
      && (bill.evicted != [] ==> ev.DropOldest?)
      && (bill.abandoned != [] ==> ev.Fail?)
      && (bill.cancelled != [] ==> ev.Cancel?)
      && (bill.lostAtExit != [] ==> ev.Restart?)
      && (bill.flushLost != [] ==> ev.DropOldest? && Misses(s))
      && (bill.clobbered != [] ==> s.stale && (ev.Delete? || ev.Release?))
      && (bill.surplus != [] ==> ev.Restart? || (s.stale && (ev.Delete? || ev.Release?)))
  {
    hide ChunkName, TmpName, IsChunkFile, SeqNumber, TotalBytes, NextNumber, Flatten, Chunks, EntriesAt, Count;
  }

  /** The accepted column of a run is what arrived, in order. */
  lemma {:induction false} RunAccepts(cfg: Config, s: State, events: seq<Event>)
    requires cfg.Valid() && IsRun(cfg, s, events)
    ensures Run(cfg, s, events).bill.accepted == Arrivals(events)
    decreases |events|
  {
    if events != [] {
      StepCauses(cfg, s, events[0]);
      hide Step, Enabled;
      RunAccepts(cfg, Step(cfg, s, events[0]).state, events[1..]);
    }
  }
}
