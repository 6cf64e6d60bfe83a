/** Theorems about whole runs of the log pipeline: the ledger, and what can be lost and
    when (src/orchestrator.rs:121-226, src/buffer.rs:134-216). */
module LogRuns {
  import opened Prelude
  import opened LogEntries
  import opened SpoolNames
  import opened Spool
  import opened Orchestrator
  import opened LogLedger

  lemma StepKeepsInv(cfg: Config, base: Files, s: State, ev: Event)
    requires cfg.Valid() && Inv(cfg, base, s) && Enabled(cfg, s, ev)
    ensures Inv(cfg, base, Step(cfg, s, ev).state)
  {
    hide Inv;
    match ev
    case Ingest(e) => IngestKeepsInv(cfg, base, s, e);
    case Push => PushKeepsInv(cfg, base, s);
    case CheckSize => CheckSizeKeepsInv(cfg, base, s);
    case ListOldest => ListOldestKeepsInv(cfg, base, s);
    case DropOldest => DropOldestKeepsInv(cfg, base, s);
    case Relist => RelistKeepsInv(cfg, base, s);
    case PickNumber => PickNumberKeepsInv(cfg, base, s);
    case WriteTmp(k) => WriteTmpKeepsInv(cfg, base, s, k);
    case Rename => RenameKeepsInv(cfg, base, s);
    case Release => ReleaseKeepsInv(cfg, base, s);
    case Drain => DrainKeepsInv(cfg, base, s);
    case PickChunk => PickChunkKeepsInv(cfg, base, s);
    case Read => ReadKeepsInv(cfg, base, s);
    case HandOff => HandOffKeepsInv(cfg, base, s);
    case BatchDone => BatchDoneKeepsInv(cfg, base, s);
    case Fail => FailKeepsInv(cfg, base, s);
    case LockRequeue => LockRequeueKeepsInv(cfg, base, s);
    case LockTail => LockTailKeepsInv(cfg, base, s);
    case Delete => DeleteKeepsInv(cfg, base, s);
    case Cancel => CancelKeepsInv(cfg, base, s);
    case FinalFlush => FinalFlushKeepsInv(cfg, base, s);
    case Restart => RestartKeepsInv(cfg, base, s);
    case Bookkeep(name, data) => BookkeepKeepsInv(cfg, base, s, name, data);
  }

  lemma StepConserves(cfg: Config, s: State, ev: Event, x: LogEntry)
    requires cfg.Valid() && LockInv(cfg, s) && PubInv(cfg, s) && Enabled(cfg, s, ev)
    ensures Conserves(cfg, s, Step(cfg, s, ev), x)
  {
    hide LockInv, PubInv, Conserves;
    match ev
    case Ingest(e) => IngestConserves(cfg, s, x, e);
    case Push => PushConserves(cfg, s, x);
    case CheckSize => CheckSizeConserves(cfg, s, x);
    case ListOldest => ListOldestConserves(cfg, s, x);
    case DropOldest => DropOldestConserves(cfg, s, x);
    case Relist => RelistConserves(cfg, s, x);
    case PickNumber => PickNumberConserves(cfg, s, x);
    case WriteTmp(k) => WriteTmpConserves(cfg, s, x, k);
    case Rename => RenameConserves(cfg, s, x);
    case Release => ReleaseConserves(cfg, s, x);
    case Drain => DrainConserves(cfg, s, x);
    case PickChunk => PickChunkConserves(cfg, s, x);
    case Read => ReadConserves(cfg, s, x);
    case HandOff => HandOffConserves(cfg, s, x);
    case BatchDone => BatchDoneConserves(cfg, s, x);
    case Fail => FailConserves(cfg, s, x);
    case LockRequeue => LockRequeueConserves(cfg, s, x);
    case LockTail => LockTailConserves(cfg, s, x);
    case Delete => DeleteConserves(cfg, s, x);
    case Cancel => CancelConserves(cfg, s, x);
    case FinalFlush => FinalFlushConserves(cfg, s, x);
    case Restart => RestartConserves(cfg, s, x);
    case Bookkeep(name, data) => BookkeepConserves(cfg, s, x, name, data);
  }

  lemma LeftAdds(a: Ledger, b: Ledger, x: LogEntry)
    ensures Left(Add(a, b), x) == Left(a, x) + Left(b, x)
  {
    CountConcat(a.settled, b.settled, x);
    CountConcat(a.evicted, b.evicted, x);
    CountConcat(a.abandoned, b.abandoned, x);
    CountConcat(a.cancelled, b.cancelled, x);
    CountConcat(a.lostAtExit, b.lostAtExit, x);
    CountConcat(a.flushLost, b.flushLost, x);
    CountConcat(a.clobbered, b.clobbered, x);
  }

  lemma ConservationComposes(cfg: Config, s: State, first: Outcome, rest: Outcome, x: LogEntry)
    requires Conserves(cfg, s, first, x) && Conserves(cfg, first.state, rest, x)
    ensures Conserves(cfg, s, Outcome(rest.state, Add(first.bill, rest.bill)), x)
  {
    hide Holds, Left, Copies, Sent, Count;
    var a, b := first.bill, rest.bill;
    LeftAdds(a, b, x);
    CountConcat(a.accepted, b.accepted, x);
    CountConcat(a.surplus, b.surplus, x);
    CountConcat(a.handed, b.handed, x);
    CountConcat(a.settled, b.settled, x);
    CountConcat(a.resent, b.resent, x);
  }

  /** The invariant and the conservation law hold along every run. */
  lemma {:induction false} RunKeeps(cfg: Config, base: Files, s: State, events: seq<Event>, x: LogEntry)
    requires cfg.Valid() && Inv(cfg, base, s) && IsRun(cfg, s, events)
    ensures Inv(cfg, base, Run(cfg, s, events).state)
    ensures Conserves(cfg, s, Run(cfg, s, events), x)
    decreases |events|
  {
    hide Enabled, Step, LockInv, PubInv, ChunksWhole;
    if events != [] {
      var first := Step(cfg, s, events[0]);
      StepKeepsInv(cfg, base, s, events[0]);
      StepConserves(cfg, s, events[0], x);
      RunKeeps(cfg, base, first.state, events[1..], x);
      ConservationComposes(cfg, s, first, Run(cfg, first.state, events[1..]), x);
    }
  }

  // ---- nothing is lost silently --------------------------------------------------------------------

  /** The log ledger. In every interleaving of pushes, publishing failing at any
      message, evictions, restarts and shutdown, each entry that was on disk at
      the start or accepted later, and each copy left behind, is settled after
      hand-off, held by the daemon, evicted, or in one of the explicit loss lists,
      exactly as often as it was accepted; hand-offs beyond the settled ones are
      listed as resent. (While a tail is being requeued its entries exist twice.) */
  lemma LogLedgerTheorem(cfg: Config, s: State, events: seq<Event>, x: LogEntry)
    requires cfg.Valid() && Initial(s) && IsRun(cfg, s, events)
    ensures var Outcome(end, bill) := Run(cfg, s, events);
      && OnDisk(cfg.codec, s.files, x) + Count(bill.accepted, x) + Count(bill.surplus, x) + Count(Copies(end), x)
         == Holds(cfg, end, x) + Count(bill.settled, x) + Count(bill.evicted, x)
          + Count(bill.abandoned, x) + Count(bill.cancelled, x) + Count(bill.lostAtExit, x)
          + Count(bill.flushLost, x) + Count(bill.clobbered, x)
      && Count(bill.handed, x) == Count(bill.settled, x) + Count(bill.resent, x) + Count(Sent(end), x)
  {
    InitialInv(cfg, s);
    RunKeeps(cfg, s.files, s, events, x);
    hide Run, IsRun, Inv, OnDisk;
  }

  /** In particular nothing vanishes unlisted: every entry is accounted for at least as
      often as it was accepted. */
  lemma NothingVanishes(cfg: Config, s: State, events: seq<Event>, x: LogEntry)
    requires cfg.Valid() && Initial(s) && IsRun(cfg, s, events)
    ensures var Outcome(end, bill) := Run(cfg, s, events);
      OnDisk(cfg.codec, s.files, x) + Count(bill.accepted, x) <= Holds(cfg, end, x) + Left(bill, x)
  {
    LogLedgerTheorem(cfg, s, events, x);
    hide Run, IsRun, OnDisk;
  }

  /** No step of the run evicts the chunk being published or misses the chunk it
      meant to evict, and the process does not end in the middle of a tail requeue. */
  ghost predicate Undisturbed(cfg: Config, s: State, events: seq<Event>)
    requires cfg.Valid() && IsRun(cfg, s, events)
    decreases |events|
  {
    events == [] ||
    (&& !(events[0].DropOldest? && (Hits(s) || Misses(s)))
     && !(events[0].Restart? && Copies(s) != [])
     && Undisturbed(cfg, Step(cfg, s, events[0]).state, events[1..]))
  }

  /** Without such a disturbance no chunk is deleted in another's place, no entry is
      duplicated on the device, and no flush fails. */
  lemma {:induction false} UndisturbedIsExact(cfg: Config, s: State, events: seq<Event>)
    requires cfg.Valid() && IsRun(cfg, s, events) && Undisturbed(cfg, s, events) && !s.stale
    ensures var bill := Run(cfg, s, events).bill; bill.clobbered == [] && bill.surplus == [] && bill.flushLost == []
    decreases |events|
  {
    if events != [] {
      StepExact(cfg, s, events[0]);
      hide Step, Enabled;
      UndisturbedIsExact(cfg, Step(cfg, s, events[0]).state, events[1..]);
    }
  }

  lemma StepExact(cfg: Config, s: State, ev: Event)
    requires cfg.Valid() && Enabled(cfg, s, ev) && !s.stale
    requires !(ev.DropOldest? && (Hits(s) || Misses(s))) && !(ev.Restart? && Copies(s) != [])
    ensures !Step(cfg, s, ev).state.stale
    ensures var bill := Step(cfg, s, ev).bill; bill.clobbered == [] && bill.surplus == [] && bill.flushLost == []
  {
    hide ChunkName, IsChunkFile, TmpName, SeqNumber, TotalBytes;
  }

  /** If the memory queue fits one publish batch, an entry that is not evicted can
      be lost only by cancelling a publish tick at shutdown, by an exit, or by one of
      the two races with deletion; an undisturbed run has neither race. */
  lemma OnlyCancellationLoses(cfg: Config, s: State, events: seq<Event>, x: LogEntry)
    requires cfg.Valid() && Initial(s) && IsRun(cfg, s, events)
    requires cfg.buffer.memoryMax <= 200
    ensures var Outcome(end, bill) := Run(cfg, s, events);
      OnDisk(cfg.codec, s.files, x) + Count(bill.accepted, x) + Count(bill.surplus, x) + Count(Copies(end), x)
      == Holds(cfg, end, x) + Count(bill.settled, x) + Count(bill.evicted, x) + Count(bill.cancelled, x)
       + Count(bill.lostAtExit, x) + Count(bill.flushLost, x) + Count(bill.clobbered, x)
    ensures Cancel !in events ==> Run(cfg, s, events).bill.cancelled == []
    ensures Restart !in events ==> Run(cfg, s, events).bill.lostAtExit == []
    ensures Undisturbed(cfg, s, events) ==>
      var bill := Run(cfg, s, events).bill; bill.flushLost == [] && bill.clobbered == [] && bill.surplus == []
  {
    LogLedgerTheorem(cfg, s, events, x);
    InitialInv(cfg, s);
    SmallMemoryNeverAbandons(cfg, s.files, s, events);
    if Restart !in events {
      NoRestartNoExitLoss(cfg, s, events);
    }
    if Cancel !in events {
      NoCancelNoneCancelled(cfg, s, events);
    }
    if Undisturbed(cfg, s, events) {
      UndisturbedIsExact(cfg, s, events);
    }
    hide Run, IsRun, Undisturbed, Inv, OnDisk;
  }

  lemma {:induction false} NoCancelNoneCancelled(cfg: Config, s: State, events: seq<Event>)
    requires cfg.Valid() && IsRun(cfg, s, events) && Cancel !in events
    ensures Run(cfg, s, events).bill.cancelled == []
    decreases |events|
  {
    if events != [] {
      StepWithoutCancel(cfg, s, events[0]);
      hide Step, Enabled;
      NoCancelNoneCancelled(cfg, Step(cfg, s, events[0]).state, events[1..]);
    }
  }

  lemma StepWithoutCancel(cfg: Config, s: State, ev: Event)
    requires cfg.Valid() && Enabled(cfg, s, ev) && !ev.Cancel?
    ensures Step(cfg, s, ev).bill.cancelled == []
  {
    hide ChunkName, IsChunkFile, TmpName, SeqNumber, Hits, TotalBytes;
  }

  lemma {:induction false} NoRestartNoExitLoss(cfg: Config, s: State, events: seq<Event>)
    requires cfg.Valid() && IsRun(cfg, s, events) && Restart !in events
    ensures Run(cfg, s, events).bill.lostAtExit == []
    decreases |events|
  {
    if events != [] {
      StepWithoutExit(cfg, s, events[0]);
      hide Step, Enabled;
      NoRestartNoExitLoss(cfg, Step(cfg, s, events[0]).state, events[1..]);
    }
  }

  lemma StepWithoutExit(cfg: Config, s: State, ev: Event)
    requires cfg.Valid() && Enabled(cfg, s, ev) && !ev.Restart?
    ensures Step(cfg, s, ev).bill.lostAtExit == []
  {
    hide ChunkName, IsChunkFile, TmpName, SeqNumber, Hits, TotalBytes;
  }

  // ---- abandoned batches ------------------------------------------------------------------------------

  ghost predicate NeverAbandons(cfg: Config)
    requires cfg.Valid()
  {
    forall s, events :: Initial(s) && IsRun(cfg, s, events) ==> Run(cfg, s, events).bill.abandoned == []
  }

  ghost predicate OneBatch(s: State) { s.pub.Memory? ==> |s.pub.vec| <= BATCH }

  lemma {:induction false} SmallMemoryNeverAbandons(cfg: Config, base: Files, s: State, events: seq<Event>)
    requires cfg.Valid() && Inv(cfg, base, s) && IsRun(cfg, s, events)
    requires cfg.buffer.memoryMax <= BATCH && OneBatch(s)
    ensures Run(cfg, s, events).bill.abandoned == []
    decreases |events|
  {
    if events != [] {
      StepKeepsInv(cfg, base, s, events[0]);
      StepKeepsOneBatch(cfg, s, events[0]);
      hide Step, Enabled, Inv, OneBatch;
      SmallMemoryNeverAbandons(cfg, base, Step(cfg, s, events[0]).state, events[1..]);
    }
  }

  lemma StepKeepsOneBatch(cfg: Config, s: State, ev: Event)
    requires cfg.Valid() && Enabled(cfg, s, ev) && OneBatch(s)
    requires |s.memory| <= cfg.buffer.memoryMax <= BATCH
    ensures OneBatch(Step(cfg, s, ev).state)
    ensures Step(cfg, s, ev).bill.abandoned == []
  {
    hide ChunkName, IsChunkFile, TmpName, SeqNumber, Hits, TotalBytes;
  }

  // ---- composing runs ---------------------------------------------------------------------------------

  lemma {:induction false} RunConcat(cfg: Config, s: State, a: seq<Event>, b: seq<Event>)
    requires cfg.Valid() && IsRun(cfg, s, a) && IsRun(cfg, Run(cfg, s, a).state, b)
    ensures IsRun(cfg, s, a + b)
    ensures Run(cfg, s, a + b).state == Run(cfg, Run(cfg, s, a).state, b).state
    ensures Run(cfg, s, a + b).bill == Add(Run(cfg, s, a).bill, Run(cfg, Run(cfg, s, a).state, b).bill)
    decreases |a|
  {
    hide Step, Enabled;
    if a == [] {
      assert a + b == b;
      AddNothing(Run(cfg, s, b).bill);
    } else {
      var first := Step(cfg, s, a[0]);
      RunConcat(cfg, first.state, a[1..], b);
      assert (a + b)[1..] == a[1..] + b;
      AddAssociative(first.bill, Run(cfg, first.state, a[1..]).bill, Run(cfg, Run(cfg, s, a).state, b).bill);
    }
  }

  lemma AddNothing(a: Ledger)
    ensures Add(NOTHING, a) == a == Add(a, NOTHING)
  {
  }

  lemma AddAssociative(a: Ledger, b: Ledger, c: Ledger)
    ensures Add(Add(a, b), c) == Add(a, Add(b, c))
  {
  }

  lemma OneStep(cfg: Config, s: State, ev: Event)
    requires cfg.Valid() && Enabled(cfg, s, ev)
    ensures IsRun(cfg, s, [ev]) && Run(cfg, s, [ev]) == Step(cfg, s, ev)
  {
    hide Step, Enabled;
    AddNothing(Step(cfg, s, ev).bill);
    assert [ev][1..] == [];
  }

  /** Extending a run by one enabled event. */
  lemma Extend(cfg: Config, s: State, a: seq<Event>, ev: Event)
    requires cfg.Valid() && IsRun(cfg, s, a) && Enabled(cfg, Run(cfg, s, a).state, ev)
    ensures IsRun(cfg, s, a + [ev])
    ensures Run(cfg, s, a + [ev]).state == Step(cfg, Run(cfg, s, a).state, ev).state
    ensures Run(cfg, s, a + [ev]).bill == Add(Run(cfg, s, a).bill, Step(cfg, Run(cfg, s, a).state, ev).bill)
  {
    hide Step, Enabled, Run, IsRun;
    OneStep(cfg, Run(cfg, s, a).state, ev);
    RunConcat(cfg, s, a, [ev]);
  }

  // ---- the batch size is the exact limit ------------------------------------------------------------------

  /** n pushes of e into a memory queue that has room for them. */
  lemma {:induction false} FillMemory(cfg: Config, s: State, e: LogEntry, n: nat) returns (events: seq<Event>)
    requires cfg.Valid() && s.lock == Free && |s.memory| + n <= cfg.buffer.memoryMax
    ensures IsRun(cfg, s, events) && HandOff !in events && DropOldest !in events
    ensures Run(cfg, s, events).state == s.(memory := s.memory + seq(n, _ => e))
    decreases n
  {
    if n == 0 {
      events := [];
      assert s.memory + seq(0, _ => e) == s.memory;
    } else {
      var s1 := s.(lock := Held(Ingestion, [], Ready, [e]));
      var s2 := s1.(memory := s.memory + [e], lock := Held(Ingestion, [], Ready, []));
      var s3 := s2.(lock := Free);
      assert [e][1..] == [];
      assert Step(cfg, s, Ingest(e)).state == s1;
      assert Step(cfg, s1, Push).state == s2;
      assert Step(cfg, s2, Release).state == s3;
      ThreeSteps(cfg, s, Ingest(e), Push, Release);
      var rest := FillMemory(cfg, s3, e, n - 1);
      hide Step, Enabled;
      RunConcat(cfg, s, [Ingest(e), Push, Release], rest);
      events := [Ingest(e), Push, Release] + rest;
      assert s3.memory + seq(n - 1, _ => e) == s.memory + seq(n, _ => e);
    }
  }

  lemma ThreeSteps(cfg: Config, s: State, a: Event, b: Event, c: Event)
    requires cfg.Valid() && Enabled(cfg, s, a)
    requires Enabled(cfg, Step(cfg, s, a).state, b)
    requires Enabled(cfg, Step(cfg, Step(cfg, s, a).state, b).state, c)
    ensures IsRun(cfg, s, [a, b, c])
    ensures Run(cfg, s, [a, b, c]).state == Step(cfg, Step(cfg, Step(cfg, s, a).state, b).state, c).state
  {
    hide Step, Enabled, IsRun, Run;
    OneStep(cfg, s, a);
    Extend(cfg, s, [a], b);
    assert [a] + [b] == [a, b];
    Extend(cfg, s, [a, b], c);
    assert [a, b] + [c] == [a, b, c];
  }

  /** A run that abandons an entry: fill the queue with one entry more than a batch,
      drain it, and let the first message fail. */
  lemma AbandoningRun(cfg: Config) returns (s: State, events: seq<Event>)
    requires cfg.Valid() && cfg.buffer.memoryMax > BATCH
    ensures Initial(s) && IsRun(cfg, s, events) && Run(cfg, s, events).bill.abandoned != []
  {
    s := State(map[], [], false, Free, Idle, false, map[]);
    var e := LogEntry("", None, None, None, "", map[]);
    var fill := FillMemory(cfg, s, e, BATCH + 1);
    var full := Run(cfg, s, fill).state;
    assert |full.memory| == BATCH + 1;
    DrainThenFail(cfg, full);
    hide Run, IsRun, Step, Enabled;
    Extend(cfg, s, fill, Drain);
    Extend(cfg, s, fill + [Drain], Fail);
    events := fill + [Drain] + [Fail];
  }

  lemma DrainThenFail(cfg: Config, s: State)
    requires cfg.Valid() && s.lock.Free? && s.pub.Idle? && |s.memory| > BATCH
    ensures Enabled(cfg, s, Drain) && Enabled(cfg, Step(cfg, s, Drain).state, Fail)
    ensures Step(cfg, Step(cfg, s, Drain).state, Fail).bill.abandoned != []
  {
  }

  /** Later batches of a drained vector are abandoned in some run exactly when the
      memory queue can hold more than one batch. */
  lemma AbandonsIffLargeMemory(cfg: Config)
    requires cfg.Valid()
    ensures NeverAbandons(cfg) <==> cfg.buffer.memoryMax <= 200
  {
    if cfg.buffer.memoryMax <= BATCH {
      forall s, events | Initial(s) && IsRun(cfg, s, events)
        ensures Run(cfg, s, events).bill.abandoned == []
      {
        InitialInv(cfg, s);
        SmallMemoryNeverAbandons(cfg, s.files, s, events);
      }
    } else {
      var s, events := AbandoningRun(cfg);
    }
  }
}
