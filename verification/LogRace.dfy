/** The two races between the lock holder's evictions and the publisher, which deletes
    by path without the lock (src/buffer.rs:54-95, 164-184, 227-231;
    src/orchestrator.rs:184-221): when they can happen, exactly, and what they lose. */
module LogRace {
  import opened Prelude
  import opened LogEntries
  import opened SpoolNames
  import opened Spool
  import opened Orchestrator
  import opened LogLedger
  import opened LogRuns

  /** The publisher is reading or sending a chunk, or about to delete it, and needs no
      lock to get there. */
  predicate Reading(pub: Publisher) { pub.Picked? || pub.Disk? || pub.Deleting? || pub.Corrupt? }

  predicate Numbering(s: State, n: nat)
  {
    s.lock.Held? && (s.lock.stage.Numbered? || s.lock.stage.Writing?) && s.lock.stage.n == n
  }

  /** The chunk the publisher is on, number n, was evicted, and its name is free. */
  ghost predicate Lost(s: State, n: nat)
  {
    s.stale && PublishedPath(s) == Some(ChunkName(n)) && ChunkName(n) !in s.files && !Numbering(s, n)
  }

  /** And the lock holder is about to give that number to its own chunk. */
  ghost predicate Exposed(s: State, n: nat)
  {
    Lost(s, n) && Reading(s.pub) && CanPickNumber(s) && NextNumber(s.files) == n
  }

  lemma HolderLosesByHit(cfg: Config, s: State, ev: Event, n: nat)
    requires cfg.Valid() && Enabled(cfg, s, ev) && !s.stale
    requires ev.DropOldest?
    ensures Lost(Step(cfg, s, ev).state, n) <==> Hits(s) && s.lock.stage.path == ChunkName(n)
  {
    hide ChunkName, IsChunkFile, EntriesAt, Flatten, Prefix, Suffix;
  }

  lemma StaysFresh(cfg: Config, s: State, ev: Event)
    requires cfg.Valid() && Enabled(cfg, s, ev) && !s.stale && !ev.DropOldest?
    ensures !Step(cfg, s, ev).state.stale
  {
    hide ChunkName, IsChunkFile, TmpName, SeqNumber, TotalBytes, NextNumber, Chunks, Count;
  }

  /** The only way into this state: a step evicts the chunk that the publisher is on. */
  lemma LostIffHit(cfg: Config, s: State, ev: Event, n: nat)
    requires cfg.Valid() && Enabled(cfg, s, ev) && !s.stale
    ensures Lost(Step(cfg, s, ev).state, n) <==> ev.DropOldest? && Hits(s) && s.lock.stage.path == ChunkName(n)
  {
    hide Step, Enabled, ChunkName;
    if ev.DropOldest? {
      HolderLosesByHit(cfg, s, ev, n);
    } else {
      StaysFresh(cfg, s, ev);
    }
  }

  // ---- without a new number nothing is clobbered ----------------------------------------------------

  /** The name is free, and the publisher is on no other chunk it could delete. */
  ghost predicate NameFree(s: State, n: nat)
  {
    && ChunkName(n) !in s.files && !Numbering(s, n)
    && (PublishedPath(s).Some? ==> PublishedPath(s) == Some(ChunkName(n)))
  }

  ghost predicate TakesNumber(s: State, ev: Event, n: nat)
  {
    ev.PickNumber? && NextNumber(s.files) == n
  }

  lemma WritingKeepsNameFree(cfg: Config, s: State, k: nat, n: nat)
    requires cfg.Valid() && CanWriteTmp(cfg, s, k) && NameFree(s, n)
    ensures NameFree(DoWriteTmp(cfg, s, k).state, n)
  {
    hide ChunkName, TmpName, IsChunkFile, SeqNumber;
    TmpNameIgnored(s.lock.stage.n);
    ChunkNameRecognised(n);
  }

  lemma RenamingKeepsNameFree(cfg: Config, s: State, n: nat)
    requires cfg.Valid() && CanRename(cfg, s) && NameFree(s, n)
    ensures NameFree(DoRename(cfg, s).state, n)
  {
    hide ChunkName, TmpName, IsChunkFile, SeqNumber;
    if ChunkName(s.lock.stage.n) == ChunkName(n) {
      ChunkNamesDistinct(s.lock.stage.n, n);
    }
  }

  lemma BookkeepingKeepsNameFree(s: State, name: string, data: seq<Byte>, n: nat)
    requires name in BOOKKEEPING && NameFree(s, n)
    ensures NameFree(DoBookkeep(s, name, data).state, n)
  {
    hide ChunkName, TmpName, IsChunkFile, SeqNumber;
    BookkeepingIsNotSpool(name);
    ChunkNameRecognised(n);
  }

  /** The lock holder's other steps, which create no file. */
  lemma HoldingKeepsNameFree(cfg: Config, s: State, ev: Event, n: nat)
    requires cfg.Valid() && Enabled(cfg, s, ev) && NameFree(s, n) && !TakesNumber(s, ev, n)
    requires ev.Ingest? || ev.Push? || ev.CheckSize? || ev.ListOldest? || ev.DropOldest? || ev.Relist? || ev.PickNumber?
    ensures NameFree(Step(cfg, s, ev).state, n) && Step(cfg, s, ev).bill.clobbered == []
  {
    hide ChunkName, TmpName, IsChunkFile, SeqNumber, TotalBytes, NextNumber, EntriesAt, Flatten, Chunks;
  }

  lemma ReleasingKeepsNameFree(cfg: Config, s: State, n: nat)
    requires cfg.Valid() && CanRelease(s) && NameFree(s, n) && LockInv(cfg, s)
    ensures NameFree(DoRelease(cfg, s).state, n) && DoRelease(cfg, s).bill.clobbered == []
  {
    hide ChunkName, TmpName, IsChunkFile, SeqNumber;
  }

  lemma PublishingKeepsNameFree(cfg: Config, s: State, ev: Event, n: nat)
    requires cfg.Valid() && Enabled(cfg, s, ev) && NameFree(s, n) && LockInv(cfg, s)
    requires ev.Drain? || ev.Read? || ev.HandOff? || ev.BatchDone? || ev.Fail? || ev.Delete?
    ensures NameFree(Step(cfg, s, ev).state, n) && Step(cfg, s, ev).bill.clobbered == []
  {
    hide ChunkName, TmpName, IsChunkFile, SeqNumber, Flatten, Chunks, Count, Dropped, Sent;
  }

  lemma LockingKeepsNameFree(cfg: Config, s: State, ev: Event, n: nat)
    requires cfg.Valid() && Enabled(cfg, s, ev) && NameFree(s, n) && LockInv(cfg, s)
    requires ev.LockRequeue? || ev.LockTail? || ev.Cancel? || ev.FinalFlush? || ev.Restart?
    ensures NameFree(Step(cfg, s, ev).state, n) && Step(cfg, s, ev).bill.clobbered == []
  {
    hide ChunkName, TmpName, IsChunkFile, SeqNumber, Flatten, Chunks, Count, Dropped, Sent, Reverse;
  }

  lemma StepKeepsNameFree(cfg: Config, s: State, ev: Event, n: nat)
    requires cfg.Valid() && LockInv(cfg, s) && Enabled(cfg, s, ev) && NameFree(s, n)
    requires !ev.PickChunk? && !TakesNumber(s, ev, n)
    ensures NameFree(Step(cfg, s, ev).state, n) && Step(cfg, s, ev).bill.clobbered == []
  {
    hide NameFree, LockInv, TakesNumber;
    match ev
    case WriteTmp(k) => WritingKeepsNameFree(cfg, s, k, n);
    case Rename => RenamingKeepsNameFree(cfg, s, n);
    case Bookkeep(name, data) => BookkeepingKeepsNameFree(s, name, data, n);
    case Release => ReleasingKeepsNameFree(cfg, s, n);
    case Ingest(_) => HoldingKeepsNameFree(cfg, s, ev, n);
    case Push => HoldingKeepsNameFree(cfg, s, ev, n);
    case CheckSize => HoldingKeepsNameFree(cfg, s, ev, n);
    case ListOldest => HoldingKeepsNameFree(cfg, s, ev, n);
    case DropOldest => HoldingKeepsNameFree(cfg, s, ev, n);
    case Relist => HoldingKeepsNameFree(cfg, s, ev, n);
    case PickNumber => HoldingKeepsNameFree(cfg, s, ev, n);
    case LockRequeue => LockingKeepsNameFree(cfg, s, ev, n);
    case LockTail => LockingKeepsNameFree(cfg, s, ev, n);
    case Cancel => LockingKeepsNameFree(cfg, s, ev, n);
    case FinalFlush => LockingKeepsNameFree(cfg, s, ev, n);
    case Restart => LockingKeepsNameFree(cfg, s, ev, n);
    case _ => PublishingKeepsNameFree(cfg, s, ev, n);
  }

  /** No chunk of the run is given the number n. */
  ghost predicate NeverTakes(cfg: Config, s: State, events: seq<Event>, n: nat)
    requires cfg.Valid() && IsRun(cfg, s, events)
    decreases |events|
  {
    events == [] || (!TakesNumber(s, events[0], n) && NeverTakes(cfg, Step(cfg, s, events[0]).state, events[1..], n))
  }

  lemma {:induction false} NoReuseNoClobber(cfg: Config, base: Files, s: State, events: seq<Event>, n: nat)
    requires cfg.Valid() && Inv(cfg, base, s) && IsRun(cfg, s, events) && NameFree(s, n)
    requires PickChunk !in events && NeverTakes(cfg, s, events, n)
    ensures NameFree(Run(cfg, s, events).state, n) && Run(cfg, s, events).bill.clobbered == []
    decreases |events|
  {
    hide NameFree, Enabled, Step, PubInv, ChunksWhole, LockInv, TakesNumber;
    if events != [] {
      StepKeepsNameFree(cfg, s, events[0], n);
      StepKeepsInv(cfg, base, s, events[0]);
      NoReuseNoClobber(cfg, base, Step(cfg, s, events[0]).state, events[1..], n);
    }
  }

  ghost predicate HigherOnDisk(files: Files, n: nat)
  {
    exists f :: f in files && SeqNumber(f).Some? && SeqNumber(f).value >= n
  }

  /** The next chunk gets number n exactly when n - 1 is the largest number on disk. */
  lemma NextIsExactly(files: Files, n: nat)
    requires n > 0
    ensures NextNumber(files) == n <==> !HigherOnDisk(files, n) && (n == 1 || HigherOnDisk(files, n - 1))
  {
    hide SeqNumber;
  }

  ghost predicate HigherStays(cfg: Config, s: State, events: seq<Event>, n: nat)
    requires cfg.Valid() && IsRun(cfg, s, events)
    decreases |events|
  {
    HigherOnDisk(s.files, n) && (events == [] || HigherStays(cfg, Step(cfg, s, events[0]).state, events[1..], n))
  }

  lemma {:induction false} HigherNeverTakes(cfg: Config, s: State, events: seq<Event>, n: nat)
    requires cfg.Valid() && IsRun(cfg, s, events) && HigherStays(cfg, s, events, n)
    ensures NeverTakes(cfg, s, events, n)
    decreases |events|
  {
    hide Enabled, Step;
    if events != [] {
      if n > 0 {
        NextIsExactly(s.files, n);
      }
      HigherNeverTakes(cfg, Step(cfg, s, events[0]).state, events[1..], n);
    }
  }

  /** While a file with a number as high stays on disk, the freed name is not used again,
      and until the publisher picks another chunk no deletion takes a wrong one. */
  lemma SparedWhileHigherStays(cfg: Config, base: Files, s: State, events: seq<Event>, n: nat)
    requires cfg.Valid() && Inv(cfg, base, s) && Lost(s, n) && IsRun(cfg, s, events)
    requires PickChunk !in events && HigherStays(cfg, s, events, n)
    ensures ChunkName(n) !in Run(cfg, s, events).state.files && Run(cfg, s, events).bill.clobbered == []
  {
    HigherNeverTakes(cfg, s, events, n);
    NoReuseNoClobber(cfg, base, s, events, n);
    hide Inv, Run, IsRun;
  }

  // ---- the one way to a wrong deletion --------------------------------------------------------------

  /** The publisher is not on its way to an unlocked deletion. */
  ghost predicate Quiet(s: State) { !Reading(s.pub) && !s.pub.Tailing? }

  lemma StepKeepsQuiet(cfg: Config, s: State, ev: Event)
    requires cfg.Valid() && Enabled(cfg, s, ev) && LockInv(cfg, s) && Quiet(s) && !ev.PickChunk? && !ev.LockTail?
    ensures Quiet(Step(cfg, s, ev).state) && Step(cfg, s, ev).bill.clobbered == []
  {
    hide ChunkName, TmpName, IsChunkFile, SeqNumber, TotalBytes, NextNumber, Flatten, Chunks, Count;
  }

  lemma {:induction false} QuietSpares(cfg: Config, base: Files, s: State, events: seq<Event>)
    requires cfg.Valid() && Inv(cfg, base, s) && IsRun(cfg, s, events) && Quiet(s)
    requires PickChunk !in events && LockTail !in events
    ensures Run(cfg, s, events).bill.clobbered == []
    decreases |events|
  {
    hide Quiet, Enabled, Step, PubInv, ChunksWhole, LockInv;
    if events != [] {
      StepKeepsQuiet(cfg, s, events[0]);
      StepKeepsInv(cfg, base, s, events[0]);
      QuietSpares(cfg, base, Step(cfg, s, events[0]).state, events[1..]);
    }
  }

  lemma StaysLost(cfg: Config, s: State, ev: Event, n: nat)
    requires cfg.Valid() && Enabled(cfg, s, ev) && Lost(s, n) && Reading(s.pub)
    requires NameFree(Step(cfg, s, ev).state, n)
    ensures var t := Step(cfg, s, ev).state; Reading(t.pub) ==> Lost(t, n)
    ensures var t := Step(cfg, s, ev).state; !Reading(t.pub) ==> Quiet(t)
  {
    hide ChunkName, TmpName, IsChunkFile, SeqNumber, TotalBytes, NextNumber, Flatten, Chunks, Count, EntriesAt;
  }

  /** A run that deletes a wrong chunk without the lock passes an exposed state. */
  lemma {:induction false} ClobberPassesExposed(cfg: Config, base: Files, s: State, events: seq<Event>, n: nat)
    returns (before: seq<Event>)
    requires cfg.Valid() && Inv(cfg, base, s) && IsRun(cfg, s, events) && Lost(s, n) && Reading(s.pub)
    requires PickChunk !in events && LockTail !in events && Run(cfg, s, events).bill.clobbered != []
    ensures before <= events && IsRun(cfg, s, before) && Exposed(Run(cfg, s, before).state, n)
    decreases |events|
  {
    hide Enabled, Step, PubInv, ChunksWhole, LockInv, NextNumber, ChunkName, CanPickNumber;
    var ev := events[0];
    if TakesNumber(s, ev, n) {
      before := [];
      PickEnabled(cfg, s);
    } else {
      StepKeepsNameFree(cfg, s, ev, n);
      StepKeepsInv(cfg, base, s, ev);
      var t := Step(cfg, s, ev).state;
      StaysLost(cfg, s, ev, n);
      if !Reading(t.pub) {
        QuietSpares(cfg, base, t, events[1..]);
        assert false;
      } else {
        var rest := ClobberPassesExposed(cfg, base, t, events[1..], n);
        before := [ev] + rest;
        assert before[1..] == rest;
      }
    }
  }

  lemma PickEnabled(cfg: Config, s: State)
    requires Enabled(cfg, s, PickNumber)
    ensures CanPickNumber(s)
  {
  }

  // ---- from an exposed state the wrong chunk can go ----------------------------------------------------

  /** Only reads, hand-offs and finished batches. */
  ghost predicate JustSends(events: seq<Event>)
  {
    forall i :: 0 <= i < |events| ==> events[i].Read? || events[i].HandOff? || events[i].BatchDone?
  }

  lemma SendOn(cfg: Config, s: State) returns (ev: Event, pub: Publisher)
    requires cfg.Valid() && s.pub.Disk? && s.pub.published < |s.pub.entries| && Sending(s.pub)
    ensures ev.HandOff? || ev.BatchDone?
    ensures IsRun(cfg, s, [ev]) && Run(cfg, s, [ev]).state == s.(pub := pub)
    ensures var Disk(path, entries, published, sent) := s.pub;
      if ev.HandOff? then pub == Disk(path, entries, published, sent + 1) && sent < BatchOf(Rest(s.pub))
      else if published + sent == |entries| then pub == Deleting(path, entries)
      else sent > 0 && pub == Disk(path, entries, published + sent, 0)
    ensures pub.Disk? ==> pub.published < |pub.entries| && Sending(pub)
  {
    hide Run, IsRun;
    if s.pub.sent < BatchOf(Rest(s.pub)) {
      ev, pub := HandOff, Disk(s.pub.path, s.pub.entries, s.pub.published, s.pub.sent + 1);
      OneStep(cfg, s, HandOff);
      hide DoBatchDone;
    } else {
      ev, pub := BatchDone, DoBatchDone(s).state.pub;
      OneStep(cfg, s, BatchDone);
      hide DoHandOff;
    }
  }

  /** The publisher, if nothing fails, sends the rest of the chunk it has read. */
  lemma {:induction false} FinishDisk(cfg: Config, s: State) returns (events: seq<Event>)
    requires cfg.Valid() && s.pub.Disk? && s.pub.published < |s.pub.entries| && Sending(s.pub)
    ensures IsRun(cfg, s, events) && JustSends(events)
    ensures Run(cfg, s, events).state == s.(pub := Deleting(s.pub.path, s.pub.entries))
    decreases |s.pub.entries| - s.pub.published, BatchOf(Rest(s.pub)) - s.pub.sent
  {
    hide Step, Enabled, Run, IsRun;
    var ev, pub := SendOn(cfg, s);
    events := [ev];
    if pub.Disk? {
      var rest := FinishDisk(cfg, s.(pub := pub));
      RunConcat(cfg, s, [ev], rest);
      events := [ev] + rest;
    }
  }

  /** And so gets to the deletion of the path it is on. */
  lemma FinishChunk(cfg: Config, s: State) returns (events: seq<Event>, t: State)
    requires cfg.Valid() && PubInv(cfg, s) && Reading(s.pub)
    ensures IsRun(cfg, s, events) && JustSends(events) && Run(cfg, s, events).state == t
    ensures CanDelete(t) && t.pub.path == s.pub.path
    ensures t == s.(pub := t.pub, stale := t.stale)
    ensures s.pub.path !in s.files ==> t.stale == s.stale && (s.pub.Picked? ==> events == [Read])
  {
    hide ChunkUntouched;
    if s.pub.Disk? {
      events := FinishDisk(cfg, s);
      t := s.(pub := Deleting(s.pub.path, s.pub.entries));
    } else if s.pub.Picked? {
      OneStep(cfg, s, Read);
      events, t := [Read], Step(cfg, s, Read).state;
      if t.pub.Disk? {
        var more := FinishDisk(cfg, t);
        RunConcat(cfg, s, events, more);
        events, t := events + more, t.(pub := Deleting(t.pub.path, t.pub.entries));
      }
    } else {
      events, t := [], s;
    }
  }

  /** The lock holder numbers and writes its slice. */
  lemma WriteUnder(cfg: Config, s: State) returns (events: seq<Event>, t: State)
    requires cfg.Valid() && CanPickNumber(s) && s.lock.slices != []
    ensures var k := |cfg.codec.encode(s.lock.slices[0])|; events == [PickNumber, WriteTmp(k), Rename]
    ensures IsRun(cfg, s, events) && Run(cfg, s, events).state == t
    ensures t.pub == s.pub && t.stale == s.stale && t.origin == s.origin[ChunkName(NextNumber(s.files)) := s.lock.slices[0]]
    ensures t.memory == s.memory
    ensures t.lock == s.lock.(slices := s.lock.slices[1..], stage := if |s.lock.slices| > 1 then SizeCheck else Ready)
    ensures ChunkName(NextNumber(s.files)) in t.files
    ensures t.files[ChunkName(NextNumber(s.files))] == cfg.codec.encode(s.lock.slices[0])
  {
    hide ChunkName, TmpName, IsChunkFile, SeqNumber, NextNumber;
    var data := cfg.codec.encode(s.lock.slices[0]);
    assert data[..|data|] == data;
    var ev := WriteTmp(|data|);
    var s1 := DoPickNumber(s).state;
    var s2 := DoWriteTmp(cfg, s1, |data|).state;
    t := DoRename(cfg, s2).state;
    ThreeSteps(cfg, s, PickNumber, ev, Rename);
    events := [PickNumber, ev, Rename];
  }

  lemma WrongDelete(cfg: Config, s: State, n: nat, slice: seq<LogEntry>)
    requires cfg.Valid() && CanDelete(s) && s.pub.path == ChunkName(n) && s.stale
    requires ChunkName(n) in s.files && s.files[ChunkName(n)] == cfg.codec.encode(slice)
    ensures Enabled(cfg, s, Delete) && Step(cfg, s, Delete).bill.clobbered == slice
    ensures ChunkName(n) !in Step(cfg, s, Delete).state.files && Step(cfg, s, Delete).state.origin == s.origin
  {
    hide ChunkName, IsChunkFile;
    ChunkNameRecognised(n);
  }

  /** From an exposed state: the publisher gets to its deletion, and the lock holder's
      slice takes the freed name. */
  lemma FinishAndWrite(cfg: Config, s: State, n: nat) returns (events: seq<Event>, u: State)
    requires cfg.Valid() && LockInv(cfg, s) && PubInv(cfg, s) && Exposed(s, n)
    ensures IsRun(cfg, s, events) && Run(cfg, s, events).state == u
    ensures PickChunk !in events && LockTail !in events && CheckSize !in events
    ensures s.pub.Picked? ==> HandOff !in events
    ensures s.lock.slices != [] && s.lock.slices[0] != []
    ensures CanDelete(u) && u.pub.path == ChunkName(n) && u.stale
    ensures u.origin == s.origin[ChunkName(n) := s.lock.slices[0]]
    ensures ChunkName(n) in u.files && u.files[ChunkName(n)] == cfg.codec.encode(s.lock.slices[0])
  {
    hide *;
    var t, more;
    ExposedParts(cfg, s, n);
    events, t := FinishChunk(cfg, s);
    JustSendsOnly(events);
    assert CanPickNumber(t) by { SameNaming(s, t); }
    more, u := WriteUnder(cfg, t);
    RunConcat(cfg, s, events, more);
    events := events + more;
    assert CanDelete(u) by { SameDelete(t, u); }
  }

  lemma ExposedParts(cfg: Config, s: State, n: nat)
    requires LockInv(cfg, s) && Exposed(s, n)
    ensures Reading(s.pub) && s.pub.path == ChunkName(n) && s.pub.path !in s.files && s.stale
    ensures CanPickNumber(s) && NextNumber(s.files) == n
    ensures s.lock.Held? && s.lock.slices != [] && s.lock.slices[0] != []
  {
    hide ChunkName, NextNumber, TmpName, IsChunkFile;
  }

  lemma JustSendsOnly(events: seq<Event>)
    requires JustSends(events)
    ensures PickChunk !in events && LockTail !in events && CheckSize !in events
  {
  }

  lemma SameNaming(s: State, t: State)
    requires CanPickNumber(s) && t.lock == s.lock && t.files == s.files
    ensures CanPickNumber(t)
  {
    hide NextNumber;
  }

  lemma SameDelete(t: State, u: State)
    requires CanDelete(t) && u.pub == t.pub
    ensures CanDelete(u)
  {
  }

  /** And then the deletion takes that slice. */
  lemma ExposedClobbers(cfg: Config, s: State, n: nat) returns (events: seq<Event>)
    requires cfg.Valid() && LockInv(cfg, s) && PubInv(cfg, s) && Exposed(s, n)
    ensures IsRun(cfg, s, events) && PickChunk !in events && LockTail !in events && CheckSize !in events
    ensures s.pub.Picked? ==> HandOff !in events
    ensures s.lock.slices != [] && s.lock.slices[0] != [] && Run(cfg, s, events).bill.clobbered != []
    ensures forall e :: e in s.lock.slices[0] ==> e in Run(cfg, s, events).bill.clobbered
    ensures var end := Run(cfg, s, events).state;
      end.origin == s.origin[ChunkName(n) := s.lock.slices[0]] && ChunkName(n) !in end.files
  {
    hide PubInv, LockInv, Run, IsRun, Step, Enabled, ChunkName, NextNumber, ChunkUntouched;
    var u;
    events, u := FinishAndWrite(cfg, s, n);
    WrongDelete(cfg, u, n, s.lock.slices[0]);
    LastClobbers(cfg, s, events, s.lock.slices[0]);
    events := events + [Delete];
  }

  lemma LastClobbers(cfg: Config, s: State, events: seq<Event>, slice: seq<LogEntry>)
    requires cfg.Valid() && IsRun(cfg, s, events) && Enabled(cfg, Run(cfg, s, events).state, Delete)
    requires Step(cfg, Run(cfg, s, events).state, Delete).bill.clobbered == slice
    ensures IsRun(cfg, s, events + [Delete])
    ensures Run(cfg, s, events + [Delete]).state == Step(cfg, Run(cfg, s, events).state, Delete).state
    ensures Run(cfg, s, events + [Delete]).bill.clobbered == Run(cfg, s, events).bill.clobbered + slice
  {
    hide Run, IsRun, Step, Enabled;
    Extend(cfg, s, events, Delete);
  }

  /** Some continuation within this publishing cycle deletes a wrong chunk without the lock. */
  ghost predicate CanClobber(cfg: Config, s: State)
    requires cfg.Valid()
  {
    exists events :: IsRun(cfg, s, events) && PickChunk !in events && LockTail !in events
                  && Run(cfg, s, events).bill.clobbered != []
  }

  ghost predicate CanExpose(cfg: Config, s: State, n: nat)
    requires cfg.Valid()
  {
    exists events :: IsRun(cfg, s, events) && PickChunk !in events && LockTail !in events
                  && Exposed(Run(cfg, s, events).state, n)
  }

  /** A wrong chunk can be deleted if and only if a state can be reached in which a chunk
      is about to get the freed number while the publisher is still on it. */
  lemma ClobbersIffExposable(cfg: Config, base: Files, s: State, n: nat)
    requires cfg.Valid() && Inv(cfg, base, s) && Lost(s, n) && Reading(s.pub)
    ensures CanClobber(cfg, s) <==> CanExpose(cfg, s, n)
  {
    hide Enabled, Step, Inv, Lost, Exposed, Reading, Run, IsRun;
    if CanClobber(cfg, s) {
      var events :| IsRun(cfg, s, events) && PickChunk !in events && LockTail !in events
                 && Run(cfg, s, events).bill.clobbered != [];
      var before := ClobberPassesExposed(cfg, base, s, events, n);
    }
    if CanExpose(cfg, s, n) {
      var before :| IsRun(cfg, s, before) && PickChunk !in before && LockTail !in before
                 && Exposed(Run(cfg, s, before).state, n);
      var t := Run(cfg, s, before).state;
      var x := LogEntry("", None, None, None, "", map[]);
      RunKeeps(cfg, base, s, before, x);
      InvParts(cfg, base, t);
      var after := ExposedClobbers(cfg, t, n);
      RunConcat(cfg, s, before, after);
      assert (before + after) == before + after;
    }
  }

  lemma InvParts(cfg: Config, base: Files, s: State)
    requires Inv(cfg, base, s)
    ensures LockInv(cfg, s) && PubInv(cfg, s)
  {
  }

  // ---- the boundary, at the moment a chunk is numbered -----------------------------------------------------

  /** No new slice has been begun since the one that was about to be numbered. */
  ghost predicate SameSlice(s: State, n: nat)
  {
    && NameFree(s, n)
    && (s.lock.Held? ==> !s.lock.stage.Listing? && !s.lock.stage.Evicting? && !s.lock.stage.Relisting?)
    && (s.lock.Held? && s.lock.stage.Naming? ==> NextNumber(s.files) != n)
  }

  lemma BookkeepingHasNoNumber(files: Files, name: string, data: seq<Byte>)
    requires name in BOOKKEEPING
    ensures NextNumber(files[name := data]) == NextNumber(files)
  {
    assert SeqNumber(name) == None by { BookkeepingIsNotSpool(name); }
    var max := NextNumber(files) - 1;
    hide SeqNumber, NextNumber;
    assert IsMaxSeq(files[name := data].Keys, max) by {
      assert IsMaxSeq(files.Keys, max);
      assert files[name := data].Keys == files.Keys + {name};
    }
    NextNumberUnique(files[name := data], max);
  }

  lemma HolderKeepsSameSlice(cfg: Config, s: State, ev: Event, n: nat)
    requires cfg.Valid() && Enabled(cfg, s, ev) && SameSlice(s, n) && NameFree(Step(cfg, s, ev).state, n)
    requires ev.Ingest? || ev.Push? || ev.DropOldest? || ev.ListOldest? || ev.Relist? || ev.PickNumber? || ev.WriteTmp?
          || ev.Rename? || ev.Release?
    ensures !TakesNumber(s, ev, n) && SameSlice(Step(cfg, s, ev).state, n)
  {
    hide ChunkName, TmpName, IsChunkFile, SeqNumber, TotalBytes, NextNumber, Flatten, Chunks, EntriesAt, NameFree;
  }

  lemma PublisherKeepsSameSlice(cfg: Config, s: State, ev: Event, n: nat)
    requires cfg.Valid() && Enabled(cfg, s, ev) && SameSlice(s, n) && NameFree(Step(cfg, s, ev).state, n)
    requires ev.Drain? || ev.Read? || ev.HandOff? || ev.BatchDone? || ev.Fail? || ev.Delete? || ev.Cancel?
    ensures SameSlice(Step(cfg, s, ev).state, n)
  {
    assert NameFree(s, n);
    hide SameSlice, NameFree, Step, Enabled;
    PublisherMovesLittle(cfg, s, ev, n);
    SameSliceFrom(s, Step(cfg, s, ev).state, n);
  }

  /** The publisher's own steps leave the lock holder alone; the only file it could delete is
      gone already. */
  lemma PublisherMovesLittle(cfg: Config, s: State, ev: Event, n: nat)
    requires cfg.Valid() && Enabled(cfg, s, ev) && NameFree(s, n)
    requires ev.Drain? || ev.Read? || ev.HandOff? || ev.BatchDone? || ev.Fail? || ev.Delete? || ev.Cancel?
    ensures var t := Step(cfg, s, ev).state; (t.lock == s.lock || t.lock.Free?) && t.files == s.files
  {
    hide ChunkName, TmpName, IsChunkFile, SeqNumber, EntriesAt, Numbering;
  }

  lemma SameSliceFrom(s: State, t: State, n: nat)
    requires SameSlice(s, n) && NameFree(t, n) && (t.lock == s.lock || t.lock.Free?) && t.files == s.files
    ensures SameSlice(t, n)
  {
    hide ChunkName, NextNumber, NameFree;
  }

  lemma StepKeepsSameSlice(cfg: Config, s: State, ev: Event, n: nat)
    requires cfg.Valid() && LockInv(cfg, s) && Enabled(cfg, s, ev) && SameSlice(s, n)
    requires !ev.PickChunk? && !ev.CheckSize?
    ensures !TakesNumber(s, ev, n) && SameSlice(Step(cfg, s, ev).state, n)
  {
    assert !TakesNumber(s, ev, n);
    StepKeepsNameFree(cfg, s, ev, n);
    hide ChunkName, TmpName, IsChunkFile, SeqNumber, TotalBytes, NextNumber, Flatten, Chunks, EntriesAt, NameFree, LockInv;
    match ev
    case Bookkeep(name, data) => BookkeepingHasNoNumber(s.files, name, data);
    case Restart =>
    case LockRequeue =>
    case LockTail =>
    case FinalFlush =>
    case Drain => PublisherKeepsSameSlice(cfg, s, ev, n);
    case Read => PublisherKeepsSameSlice(cfg, s, ev, n);
    case HandOff => PublisherKeepsSameSlice(cfg, s, ev, n);
    case BatchDone => PublisherKeepsSameSlice(cfg, s, ev, n);
    case Fail => PublisherKeepsSameSlice(cfg, s, ev, n);
    case Delete => PublisherKeepsSameSlice(cfg, s, ev, n);
    case Cancel => PublisherKeepsSameSlice(cfg, s, ev, n);
    case _ => HolderKeepsSameSlice(cfg, s, ev, n);
  }

  lemma {:induction false} SameSliceNeverTakes(cfg: Config, base: Files, s: State, events: seq<Event>, n: nat)
    requires cfg.Valid() && Inv(cfg, base, s) && IsRun(cfg, s, events) && SameSlice(s, n)
    requires PickChunk !in events && CheckSize !in events
    ensures NeverTakes(cfg, s, events, n)
    decreases |events|
  {
    hide SameSlice, Enabled, Step, PubInv, ChunksWhole, LockInv, TakesNumber;
    if events != [] {
      StepKeepsSameSlice(cfg, s, events[0], n);
      StepKeepsInv(cfg, base, s, events[0]);
      SameSliceNeverTakes(cfg, base, Step(cfg, s, events[0]).state, events[1..], n);
    }
  }

  /** Some continuation that begins no further slice deletes a wrong chunk. */
  ghost predicate SliceAtRisk(cfg: Config, s: State)
    requires cfg.Valid()
  {
    exists events :: IsRun(cfg, s, events) && PickChunk !in events && CheckSize !in events
                  && Run(cfg, s, events).bill.clobbered != []
  }

  /** Entries the publisher waits to requeue before it deletes its chunk. */
  function Waiting(s: State): seq<LogEntry>
  {
    if s.pub.FailedTail? then Suffix(s.pub.entries, s.pub.published) else []
  }

  /** The publisher gets to its deletion without another slice: it reads or sends and needs
      no lock, or it requeues its tail, or waits to, and this slice is the last one and
      what is still to be pushed before the deletion fits into memory. */
  ghost predicate DeletesNext(cfg: Config, s: State)
  {
    || Reading(s.pub)
    || ((s.pub.Tailing? || s.pub.FailedTail?) && s.lock.Held? && |s.lock.slices| == 1
        && |s.lock.pushes| + |Waiting(s)| <= cfg.buffer.memoryMax)
  }

  /** The remaining pushes go to memory. */
  lemma {:induction false} PushRest(cfg: Config, s: State) returns (events: seq<Event>, t: State)
    requires cfg.Valid() && s.lock.Held? && s.lock.stage.Ready? && |s.memory| + |s.lock.pushes| <= cfg.buffer.memoryMax
    ensures IsRun(cfg, s, events) && Run(cfg, s, events).state == t
    ensures PickChunk !in events && LockTail !in events && CheckSize !in events
    ensures t == s.(memory := t.memory, lock := s.lock.(pushes := [])) && |t.memory| == |s.memory| + |s.lock.pushes|
    decreases |s.lock.pushes|
  {
    if s.lock.pushes == [] {
      events, t := [], s;
    } else {
      OneStep(cfg, s, Push);
      var u := DoPush(cfg, s).state;
      hide Run, IsRun, Enabled;
      var more;
      more, t := PushRest(cfg, u);
      RunConcat(cfg, s, [Push], more);
      events := [Push] + more;
    }
  }

  lemma WrongTailDelete(cfg: Config, s: State, n: nat, slice: seq<LogEntry>)
    requires cfg.Valid() && CanRelease(s) && s.pub.Tailing? && s.lock.owner.Tail? && s.stale
    requires s.lock.owner.path == ChunkName(n)
    requires ChunkName(n) in s.files && s.files[ChunkName(n)] == cfg.codec.encode(slice)
    ensures Enabled(cfg, s, Release) && Step(cfg, s, Release).bill.clobbered == slice
  {
    hide ChunkName, IsChunkFile;
    ChunkNameRecognised(n);
  }

  lemma TailParts(cfg: Config, s: State, n: nat)
    requires LockInv(cfg, s) && Lost(s, n) && s.lock.Held? && s.lock.stage.Naming?
    ensures s.pub.Tailing? ==> s.lock.owner.Tail? && s.lock.owner.path == ChunkName(n)
    ensures s.pub.FailedTail? ==> s.lock.owner.Ingestion? && s.pub.path == ChunkName(n)
    ensures s.stale && s.memory == [] && s.lock.slices != [] && s.lock.slices[0] != []
  {
    hide ChunkName, TmpName;
  }

  /** Pushing what is left of the tail, then deleting by path under the same lock. */
  lemma FinishTail(cfg: Config, s: State, n: nat, slice: seq<LogEntry>) returns (events: seq<Event>)
    requires cfg.Valid() && s.lock.Held? && s.lock.stage.Ready? && s.pub.Tailing? && s.lock.owner.Tail? && s.stale
    requires s.lock.owner.path == ChunkName(n) && |s.memory| + |s.lock.pushes| <= cfg.buffer.memoryMax
    requires ChunkName(n) in s.files && s.files[ChunkName(n)] == cfg.codec.encode(slice) && slice != []
    ensures IsRun(cfg, s, events) && PickChunk !in events && CheckSize !in events
    ensures Run(cfg, s, events).bill.clobbered != []
  {
    hide Run, IsRun, Step, Enabled, ChunkName;
    var u;
    events, u := PushRest(cfg, s);
    WrongTailDelete(cfg, u, n, slice);
    Extend(cfg, s, events, Release);
    events := events + [Release];
  }

  /** The other lock holder finishes, and the publisher gets the lock for its tail. */
  lemma HandOverLock(cfg: Config, s: State) returns (events: seq<Event>, t: State)
    requires cfg.Valid() && s.lock.Held? && s.lock.owner.Ingestion? && s.lock.stage.Ready? && s.lock.slices == []
    requires s.pub.FailedTail? && |s.memory| + |s.lock.pushes| <= cfg.buffer.memoryMax
    ensures IsRun(cfg, s, events) && Run(cfg, s, events).state == t && PickChunk !in events && CheckSize !in events
    ensures var FailedTail(path, entries, published) := s.pub;
      t == s.(memory := t.memory, pub := Tailing,
              lock := Held(Tail(path, entries, published), [], Ready, Reverse(Suffix(entries, published))))
    ensures |t.memory| == |s.memory| + |s.lock.pushes|
  {
    hide Run, IsRun;
    var u;
    events, u := PushRest(cfg, s);
    Extend(cfg, s, events, Release);
    var v := DoRelease(cfg, u).state;
    Extend(cfg, s, events + [Release], LockTail);
    events, t := events + [Release] + [LockTail], DoLockTail(v).state;
  }

  /** The slice takes the freed name, and goes when the tail is done. */
  lemma TailClobbers(cfg: Config, s: State, n: nat) returns (events: seq<Event>)
    requires cfg.Valid() && LockInv(cfg, s) && Lost(s, n) && DeletesNext(cfg, s) && !Reading(s.pub)
    requires CanPickNumber(s) && NextNumber(s.files) == n
    ensures IsRun(cfg, s, events) && PickChunk !in events && CheckSize !in events
    ensures Run(cfg, s, events).bill.clobbered != []
  {
    TailParts(cfg, s, n);
    var slice := s.lock.slices[0];
    var t, u, more;
    events, t := WriteUnder(cfg, s);
    assert Waiting(t) == Waiting(s) && t.lock.slices == [];
    hide LockInv, Lost, Run, IsRun, ChunkName, NextNumber, CanPickNumber, Reading;
    if s.pub.FailedTail? {
      assert |Reverse(Waiting(s))| == |Waiting(s)|;
      more, u := HandOverLock(cfg, t);
      RunConcat(cfg, s, events, more);
      events, t := events + more, u;
    }
    more := FinishTail(cfg, t, n, slice);
    RunConcat(cfg, s, events, more);
    events := events + more;
  }

  // ---- a deletion that cannot come before another slice ------------------------------------------------------

  /** The publisher is not on its way to a deletion, or it has a tail to requeue first, for
      which another slice must be begun. */
  ghost predicate Blocked(cfg: Config, s: State)
  {
    && !Reading(s.pub)
    && (s.pub.Tailing? || s.pub.FailedTail? ==>
          || (s.lock.Held? && s.lock.stage.SizeCheck?)
          || (s.lock.Held? && |s.lock.slices| > 1 && Writes(s.lock.stage))
          || (|s.memory| + |Pushes(s)| + |Waiting(s)| > cfg.buffer.memoryMax
              && (s.lock.Held? ==> s.lock.stage.Ready? || (Writes(s.lock.stage) && s.lock.slices != []))))
  }

  predicate Writes(stage: Stage) { stage.Naming? || stage.Numbered? || stage.Writing? }

  lemma HolderKeepsBlocked(cfg: Config, s: State, ev: Event)
    requires cfg.Valid() && Enabled(cfg, s, ev) && LockInv(cfg, s) && |s.memory| <= cfg.buffer.memoryMax && Blocked(cfg, s)
    requires ev.Ingest? || ev.Push? || ev.ListOldest? || ev.DropOldest? || ev.Relist? || ev.PickNumber? || ev.WriteTmp?
          || ev.Rename? || ev.Release?
    ensures Blocked(cfg, Step(cfg, s, ev).state) && Step(cfg, s, ev).bill.clobbered == []
  {
    hide ChunkName, TmpName, IsChunkFile, SeqNumber, NextNumber, Flatten, Chunks, EntriesAt, TotalBytes;
  }

  lemma PublisherKeepsBlocked(cfg: Config, s: State, ev: Event)
    requires cfg.Valid() && Enabled(cfg, s, ev) && LockInv(cfg, s) && Blocked(cfg, s)
    requires !(ev.Ingest? || ev.Push? || ev.ListOldest? || ev.DropOldest? || ev.Relist? || ev.PickNumber? || ev.WriteTmp?
          || ev.Rename? || ev.Release? || ev.CheckSize? || ev.PickChunk?)
    ensures Blocked(cfg, Step(cfg, s, ev).state) && Step(cfg, s, ev).bill.clobbered == []
  {
    hide ChunkName, TmpName, IsChunkFile, SeqNumber, NextNumber, Flatten, Chunks, EntriesAt, TotalBytes, Count;
  }

  lemma {:induction false} BlockedSpares(cfg: Config, base: Files, s: State, events: seq<Event>)
    requires cfg.Valid() && Inv(cfg, base, s) && IsRun(cfg, s, events) && Blocked(cfg, s)
    requires PickChunk !in events && CheckSize !in events
    ensures Run(cfg, s, events).bill.clobbered == []
    decreases |events|
  {
    hide Blocked, Enabled, Step, PubInv, ChunksWhole, LockInv;
    if events != [] {
      var ev := events[0];
      if ev.Ingest? || ev.Push? || ev.ListOldest? || ev.DropOldest? || ev.Relist? || ev.PickNumber? || ev.WriteTmp?
      || ev.Rename? || ev.Release? {
        HolderKeepsBlocked(cfg, s, ev);
      } else {
        PublisherKeepsBlocked(cfg, s, ev);
      }
      StepKeepsInv(cfg, base, s, ev);
      BlockedSpares(cfg, base, Step(cfg, s, ev).state, events[1..]);
    }
  }

  lemma BlockedWhenNaming(cfg: Config, s: State, n: nat)
    requires LockInv(cfg, s) && Lost(s, n) && s.lock.Held? && s.lock.stage.Naming? && !DeletesNext(cfg, s)
    ensures Blocked(cfg, s)
  {
    hide ChunkName, TmpName;
    TailParts(cfg, s, n);
  }

  /** The exact boundary. The publisher is on chunk n, which was evicted, whatever it is at,
      and the lock holder is about to number a slice: before another slice is begun, some
      slice can be deleted in the chunk's place if and only if n - 1 is the largest number
      on disk, so that this slice gets n, and the publisher gets to its deletion first. */
  lemma SliceAtRiskIff(cfg: Config, base: Files, s: State, n: nat)
    requires cfg.Valid() && Inv(cfg, base, s) && Lost(s, n)
    requires s.lock.Held? && s.lock.stage.Naming? && NextNumber(s.files) < U64
    ensures SliceAtRisk(cfg, s) <==> NextNumber(s.files) == n && DeletesNext(cfg, s)
    ensures n > 0 ==>
      (NextNumber(s.files) == n <==> !HigherOnDisk(s.files, n) && (n == 1 || HigherOnDisk(s.files, n - 1)))
  {
    if n > 0 {
      NextIsExactly(s.files, n);
    }
    if NextNumber(s.files) != n {
      OtherNumberSpares(cfg, base, s, n);
    } else if !DeletesNext(cfg, s) {
      BlockedSparesAll(cfg, base, s, n);
    } else if Reading(s.pub) {
      var events := ExposedClobbers(cfg, s, n);
    } else {
      var events := TailClobbers(cfg, s, n);
    }
  }

  lemma BlockedSparesAll(cfg: Config, base: Files, s: State, n: nat)
    requires cfg.Valid() && Inv(cfg, base, s) && Lost(s, n)
    requires s.lock.Held? && s.lock.stage.Naming? && !DeletesNext(cfg, s)
    ensures !SliceAtRisk(cfg, s)
  {
    BlockedWhenNaming(cfg, s, n);
    forall events | IsRun(cfg, s, events) && PickChunk !in events && CheckSize !in events
      ensures Run(cfg, s, events).bill.clobbered == []
    {
      hide Enabled, Step, Inv, Run, IsRun, Blocked;
      BlockedSpares(cfg, base, s, events);
    }
  }

  /** With any other number the slice is safe, whatever the publisher is at. */
  lemma OtherNumberSpares(cfg: Config, base: Files, s: State, n: nat)
    requires cfg.Valid() && Inv(cfg, base, s) && Lost(s, n)
    requires s.lock.Held? && s.lock.stage.Naming? && NextNumber(s.files) != n
    ensures !SliceAtRisk(cfg, s)
  {
    forall events | IsRun(cfg, s, events) && PickChunk !in events && CheckSize !in events
      ensures Run(cfg, s, events).bill.clobbered == []
    {
      hide Enabled, Step, Inv, Run, IsRun, NextNumber, ChunkName;
      SameSliceNeverTakes(cfg, base, s, events, n);
      NoReuseNoClobber(cfg, base, s, events, n);
    }
  }

  // ---- no setting is safe ------------------------------------------------------------------------------------

  lemma OnlyChunk(data: seq<Byte>)
    ensures var files: Files := map[ChunkName(1) := data];
      && ChunkFiles(files) == {ChunkName(1)}
      && NewestChunk(files) == Some(ChunkName(1))
      && OldestChunk(files) == ChunkName(1)
      && TotalBytes(files) == |data|
      && files - {ChunkName(1)} == map[]
    ensures NextNumber(map[]) == 1 && ChunkFiles(map[]) == {}
  {
    hide ChunkName, IsChunkFile;
    ChunkNameRecognised(1);
    var files: Files := map[ChunkName(1) := data];
    assert ChunkFiles(files) == {ChunkName(1)};
    TotalBytesSplit(files, ChunkName(1));
    assert files - {ChunkName(1)} == map[];
    var none: Files := map[];
    assert none.Keys == {};
  }

  lemma {:induction false} NoHandOffs(cfg: Config, s: State, events: seq<Event>)
    requires cfg.Valid() && IsRun(cfg, s, events) && HandOff !in events
    ensures Run(cfg, s, events).bill.handed == []
    decreases |events|
  {
    if events != [] {
      StepWithoutHandOff(cfg, s, events[0]);
      hide Step, Enabled;
      NoHandOffs(cfg, Step(cfg, s, events[0]).state, events[1..]);
    }
  }

  lemma StepWithoutHandOff(cfg: Config, s: State, ev: Event)
    requires cfg.Valid() && Enabled(cfg, s, ev) && ev != HandOff
    ensures Step(cfg, s, ev).bill.handed == []
  {
    hide ChunkName, IsChunkFile, TmpName, SeqNumber, Hits, TotalBytes;
  }

  /** A start with one chunk on disk, which the publisher has picked. */
  lemma RaceStart(cfg: Config, data: seq<Byte>) returns (s: State, events: seq<Event>, t: State)
    requires cfg.Valid()
    ensures Initial(s) && s.files == map[ChunkName(1) := data]
    ensures t == s.(pub := Picked(ChunkName(1)))
    ensures IsRun(cfg, s, events) && Run(cfg, s, events).state == t && HandOff !in events && DropOldest !in events
  {
    hide ChunkName, IsChunkFile;
    OnlyChunk(data);
    s := State(map[ChunkName(1) := data], [], true, Free, Idle, false, map[]);
    t := s.(pub := Picked(ChunkName(1)));
    OneStep(cfg, s, Drain);
    assert Step(cfg, s, Drain).state == s.(pub := Looking);
    Extend(cfg, s, [Drain], PickChunk);
    events := [Drain] + [PickChunk];
  }

  /** One push more than the queue holds starts a flush. */
  lemma RacePush(cfg: Config, s: State, e: LogEntry, f: LogEntry) returns (events: seq<Event>, t: State)
    requires cfg.Valid() && s.lock.Free? && s.memory == [] && s.pub.Picked?
    ensures t.lock.Held? && t == s.(lock := Held(Ingestion, t.lock.slices, SizeCheck, [f]))
    ensures t.lock.slices == Chunks(seq(cfg.buffer.memoryMax, _ => e), cfg.buffer.chunkMax)
    ensures IsRun(cfg, s, events) && Run(cfg, s, events).state == t && HandOff !in events && DropOldest !in events
  {
    hide Step, Enabled;
    var n := cfg.buffer.memoryMax;
    events := FillMemory(cfg, s, e, n);
    var s3 := s.(memory := seq(n, _ => e));
    assert [] + seq(n, _ => e) == seq(n, _ => e);
    var s4, t' := RacePushSteps(cfg, s3, f);
    t := t';
    Extend(cfg, s, events, Ingest(f));
    Extend(cfg, s, events + [Ingest(f)], Push);
    events := events + [Ingest(f)] + [Push];
  }

  lemma RacePushSteps(cfg: Config, s3: State, f: LogEntry) returns (s4: State, t: State)
    requires cfg.Valid() && s3.lock.Free? && |s3.memory| >= cfg.buffer.memoryMax
    ensures s4 == s3.(lock := Held(Ingestion, [], Ready, [f]))
    ensures t == s4.(memory := [], lock := Held(Ingestion, Chunks(s3.memory, cfg.buffer.chunkMax), SizeCheck, [f]))
    ensures Enabled(cfg, s3, Ingest(f)) && Step(cfg, s3, Ingest(f)).state == s4
    ensures Enabled(cfg, s4, Push) && Step(cfg, s4, Push).state == t
  {
    s4 := s3.(lock := Held(Ingestion, [], Ready, [f]));
    t := s4.(memory := [], lock := Held(Ingestion, Chunks(s3.memory, cfg.buffer.chunkMax), SizeCheck, [f]));
  }

  lemma RaceEvictSteps(cfg: Config, s: State, data: seq<Byte>) returns (s1: State, s2: State, s3: State, t: State)
    requires cfg.Valid() && |data| > cfg.buffer.maxBytes
    requires s.files == map[ChunkName(1) := data] && s.pub == Picked(ChunkName(1)) && CanCheckSize(s)
    ensures Enabled(cfg, s, CheckSize) && Step(cfg, s, CheckSize).state == s1
    ensures Enabled(cfg, s1, ListOldest) && Step(cfg, s1, ListOldest).state == s2
    ensures Enabled(cfg, s2, DropOldest) && Step(cfg, s2, DropOldest).state == s3
    ensures Enabled(cfg, s3, Relist) && Step(cfg, s3, Relist).state == t
    ensures s2 == s.(lock := s.lock.(stage := Evicting(ChunkName(1))))
    ensures t == s.(files := map[], lock := s.lock.(stage := Naming), stale := true)
  {
    hide ChunkName, IsChunkFile, NextNumber, EntriesAt, Prefix, Suffix;
    OnlyChunk(data);
    s1 := DoCheckSize(cfg, s).state;
    s2 := DoListOldest(s1).state;
    hide TotalBytes, OldestChunk;
    assert s1.lock.stage == Listing && s2.lock.stage == Evicting(ChunkName(1));
    s3 := DoDropOldest(cfg, s2).state;
    t := DoRelist(s3).state;
  }

  /** The flush evicts the only chunk, which is the one picked. */
  lemma RaceEvict(cfg: Config, s: State, data: seq<Byte>) returns (events: seq<Event>, t: State)
    requires cfg.Valid() && |data| > cfg.buffer.maxBytes
    requires s.files == map[ChunkName(1) := data] && s.pub == Picked(ChunkName(1)) && CanCheckSize(s)
    ensures t == s.(files := map[], lock := s.lock.(stage := Naming), stale := true) && Exposed(t, 1)
    ensures IsRun(cfg, s, events) && Run(cfg, s, events).state == t && HandOff !in events
  {
    hide ChunkName, IsChunkFile, NextNumber, Step, Enabled;
    OnlyChunk(data);
    var s1, s2, s3;
    s1, s2, s3, t := RaceEvictSteps(cfg, s, data);
    ThreeSteps(cfg, s, CheckSize, ListOldest, DropOldest);
    Extend(cfg, s, [CheckSize, ListOldest, DropOldest], Relist);
    events := [CheckSize, ListOldest, DropOldest] + [Relist];
  }

  /** Deletion by path can hit the wrong chunk, whatever the configuration. The
      directory holds one chunk larger than the whole limit, and the publisher picks it.
      A push evicts it, the publisher's read fails, the push reuses the freed number for
      its own first slice, and the publisher deletes that slice as corrupt: accepted
      entries are gone that were never handed to the client. */
  lemma NameReuseLosesAnEntry(cfg: Config, e: LogEntry, f: LogEntry) returns (s: State, events: seq<Event>)
    requires cfg.Valid()
    ensures Initial(s) && IsRun(cfg, s, events)
    ensures var Outcome(end, bill) := Run(cfg, s, events);
      && e in bill.clobbered && bill.handed == []
      && ChunkName(1) in end.origin && e in end.origin[ChunkName(1)] && ChunkName(1) !in end.files
  {
    var data := seq(cfg.buffer.maxBytes + 1, _ => 0 as Byte);
    var t, a, u, b, v;
    s, events, t := RaceStart(cfg, data);
    a, u := RacePush(cfg, t, e, f);
    b, v := RaceEvict(cfg, u, data);
    var all := seq(cfg.buffer.memoryMax, _ => e);
    ChunksNotEmpty(all, cfg.buffer.chunkMax);
    ChunkAt(all, cfg.buffer.chunkMax, 0);
    hide Step, Enabled, Run, IsRun, ChunkName, Chunks, NextNumber;
    assert v.lock.slices[0][0] == e;
    RunConcat(cfg, s, events, a);
    RunConcat(cfg, s, events + a, b);
    InitialInv(cfg, s);
    RunKeeps(cfg, s.files, s, events + a + b, e);
    InvParts(cfg, s.files, v);
    var c := ExposedClobbers(cfg, v, 1);
    RunConcat(cfg, s, events + a + b, c);
    events := events + a + b + c;
    NoHandOffs(cfg, s, events);
  }

  // ---- the other race: the chunk to be evicted is gone ---------------------------------------------------

  /** The chunk p is listed for eviction and there, and the publisher is not about to
      delete it. */
  ghost predicate SafelyListed(s: State, p: string)
  {
    && CanDropOldest(s) && s.lock.stage.path == p && p in s.files
    && !(Reading(s.pub) && s.pub.path == p)
  }

  lemma StepKeepsListed(cfg: Config, s: State, ev: Event, p: string)
    requires cfg.Valid() && LockInv(cfg, s) && Enabled(cfg, s, ev) && SafelyListed(s, p)
    requires !ev.DropOldest? && !ev.Restart?
    ensures SafelyListed(Step(cfg, s, ev).state, p)
  {
    hide ChunkName, TmpName, IsChunkFile, SeqNumber, TotalBytes, NextNumber, Flatten, Chunks, Count, EntriesAt;
  }

  lemma {:induction false} StaysListed(cfg: Config, base: Files, s: State, events: seq<Event>, p: string)
    requires cfg.Valid() && Inv(cfg, base, s) && IsRun(cfg, s, events) && SafelyListed(s, p)
    requires DropOldest !in events && Restart !in events
    ensures SafelyListed(Run(cfg, s, events).state, p)
    decreases |events|
  {
    hide SafelyListed, Enabled, Step, PubInv, ChunksWhole, LockInv;
    if events != [] {
      StepKeepsListed(cfg, s, events[0], p);
      StepKeepsInv(cfg, base, s, events[0]);
      StaysListed(cfg, base, Step(cfg, s, events[0]).state, events[1..], p);
    }
  }

  lemma DeleteRemoves(cfg: Config, s: State)
    requires cfg.Valid() && CanDelete(s)
    ensures Enabled(cfg, s, Delete)
    ensures var t := Step(cfg, s, Delete).state; t.files == s.files - {s.pub.path} && t.lock == s.lock
  {
  }

  /** The publisher deletes the path it is on before the lock holder goes on. */
  lemma DeleteFirst(cfg: Config, s: State) returns (events: seq<Event>, t: State)
    requires cfg.Valid() && PubInv(cfg, s) && Reading(s.pub)
    ensures IsRun(cfg, s, events) && Run(cfg, s, events).state == t
    ensures t.files == s.files - {s.pub.path} && t.lock == s.lock
    ensures DropOldest !in events && Restart !in events
  {
    var u;
    events, u := FinishChunk(cfg, s);
    assert DropOldest !in events && Restart !in events;
    hide *;
    DeleteRemoves(cfg, u);
    Extend(cfg, s, events, Delete);
    events, t := events + [Delete], Step(cfg, u, Delete).state;
  }

  /** Before the listed chunk is removed, something else can remove it. */
  ghost predicate CanMiss(cfg: Config, s: State)
    requires cfg.Valid() && CanDropOldest(s)
  {
    exists events :: IsRun(cfg, s, events) && DropOldest !in events && Restart !in events
                  && s.lock.stage.path !in Run(cfg, s, events).state.files
  }

  /** A removal can fail, and with it the flush, if and only if the chunk listed as the
      oldest is the one the publisher is reading, sending or about to delete. */
  lemma EvictionMissesIff(cfg: Config, base: Files, s: State)
    requires cfg.Valid() && Inv(cfg, base, s) && CanDropOldest(s) && s.lock.stage.path in s.files
    ensures CanMiss(cfg, s) <==> Reading(s.pub) && s.pub.path == s.lock.stage.path
  {
    var p := s.lock.stage.path;
    if Reading(s.pub) && s.pub.path == p {
      var events, t := DeleteFirst(cfg, s);
    } else {
      forall events | IsRun(cfg, s, events) && DropOldest !in events && Restart !in events
        ensures p in Run(cfg, s, events).state.files
      {
        hide Enabled, Step, Inv, Run, IsRun;
        StaysListed(cfg, base, s, events, p);
      }
    }
  }

  lemma MissBills(cfg: Config, s: State)
    requires cfg.Valid() && Misses(s) && s.lock.pushes != []
    ensures Enabled(cfg, s, DropOldest)
    ensures Step(cfg, s, DropOldest).bill.flushLost == Flatten(s.lock.slices) + [s.lock.pushes[0]]
    ensures Slices(Step(cfg, s, DropOldest).state) == [] && Step(cfg, s, DropOldest).state.memory == s.memory
  {
  }

  /** A run to the point where the chunk picked is listed for eviction. */
  lemma RaceListed(cfg: Config, e: LogEntry, f: LogEntry) returns (s: State, events: seq<Event>, t: State)
    requires cfg.Valid()
    ensures Initial(s) && IsRun(cfg, s, events) && Run(cfg, s, events).state == t && DropOldest !in events
    ensures t.pub == Picked(ChunkName(1)) && t.files.Keys == {ChunkName(1)}
    ensures t.lock == Held(Ingestion, Chunks(seq(cfg.buffer.memoryMax, _ => e), cfg.buffer.chunkMax), Evicting(ChunkName(1)), [f])
  {
    hide Step, Enabled, Run, IsRun, ChunkName, Chunks, NextNumber, TotalBytes;
    var data := seq(cfg.buffer.maxBytes + 1, _ => 0 as Byte);
    var u, a, v;
    s, events, u := RaceStart(cfg, data);
    a, v := RacePush(cfg, u, e, f);
    RunConcat(cfg, s, events, a);
    var s1, s2, s3, s4 := RaceEvictSteps(cfg, v, data);
    TwoSteps(cfg, v, CheckSize, ListOldest);
    RunConcat(cfg, s, events + a, [CheckSize, ListOldest]);
    events, t := events + a + [CheckSize, ListOldest], s2;
  }

  /** Whatever the configuration, a flush can fail this way, and then the whole queue it
      was writing and the entry that caused it are gone. */
  lemma FailedFlushLosesAll(cfg: Config, e: LogEntry, f: LogEntry) returns (s: State, events: seq<Event>)
    requires cfg.Valid()
    ensures Initial(s) && IsRun(cfg, s, events)
    ensures Run(cfg, s, events).bill.flushLost == seq(cfg.buffer.memoryMax, _ => e) + [f]
  {
    hide Step, Enabled, Run, IsRun, ChunkName, Chunks, NextNumber, Flatten, PubInv, LockInv, ChunksWhole, TotalBytes;
    var t, b, w;
    s, events, t := RaceListed(cfg, e, f);
    InitialInv(cfg, s);
    RunKeeps(cfg, s.files, s, events, e);
    b, w := DeleteFirst(cfg, t);
    RunConcat(cfg, s, events, b);
    ChunksFlatten(seq(cfg.buffer.memoryMax, _ => e), cfg.buffer.chunkMax);
    MissBills(cfg, w);
    events := events + b;
    NoDropNoFlushLoss(cfg, s, events);
    Extend(cfg, s, events, DropOldest);
    events := events + [DropOldest];
  }

  lemma {:induction false} NoDropNoFlushLoss(cfg: Config, s: State, events: seq<Event>)
    requires cfg.Valid() && IsRun(cfg, s, events) && DropOldest !in events
    ensures Run(cfg, s, events).bill.flushLost == []
    decreases |events|
  {
    if events != [] {
      StepWithoutDrop(cfg, s, events[0]);
      hide Step, Enabled;
      NoDropNoFlushLoss(cfg, Step(cfg, s, events[0]).state, events[1..]);
    }
  }

  lemma StepWithoutDrop(cfg: Config, s: State, ev: Event)
    requires cfg.Valid() && Enabled(cfg, s, ev) && ev != DropOldest
    ensures Step(cfg, s, ev).bill.flushLost == []
  {
    hide ChunkName, IsChunkFile, TmpName, SeqNumber, Hits, TotalBytes;
  }

  lemma TwoSteps(cfg: Config, s: State, a: Event, b: Event)
    requires cfg.Valid() && Enabled(cfg, s, a) && Enabled(cfg, Step(cfg, s, a).state, b)
    ensures IsRun(cfg, s, [a, b]) && Run(cfg, s, [a, b]).state == Step(cfg, Step(cfg, s, a).state, b).state
  {
    hide Step, Enabled, IsRun, Run;
    OneStep(cfg, s, a);
    Extend(cfg, s, [a], b);
    assert [a] + [b] == [a, b];
  }
}
