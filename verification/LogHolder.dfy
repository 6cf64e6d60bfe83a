/** What a lock holder achieves when nobody interleaves with it: whatever single steps it
    takes, when its slices are written and its pushes done, memory and directory are
    what pushing the entries one after the other gives
    (src/orchestrator.rs:88-131, 157-164, 200-211; src/buffer.rs:134-191). */
module LogHolder {
  import opened Prelude
  import opened LogEntries
  import opened SpoolNames
  import opened Spool
  import opened Orchestrator
  import opened LogLedger
  import opened LogRuns

  // ---- runs made of some kinds of steps --------------------------------------------------------

  /** `Outside`: what other tasks, shutdown and restart do. */
  datatype Kind = Outside | Holding | Locking | Draining | Picking | Loading | Sends | Deletion

  function KindOf(ev: Event): Kind
  {
    match ev
    case Push => Holding
    case CheckSize => Holding
    case ListOldest => Holding
    case DropOldest => Holding
    case Relist => Holding
    case PickNumber => Holding
    case WriteTmp(_) => Holding
    case Rename => Holding
    case Release => Locking
    case LockRequeue => Locking
    case LockTail => Locking
    case Drain => Draining
    case PickChunk => Picking
    case Read => Loading
    case HandOff => Sends
    case BatchDone => Sends
    case Fail => Sends
    case Delete => Deletion
    case Ingest(_) => Outside
    case Cancel => Outside
    case FinalFlush => Outside
    case Restart => Outside
    case Bookkeep(_, _) => Outside
  }

  ghost predicate Only(events: seq<Event>, kinds: set<Kind>)
  {
    forall ev :: ev in events ==> KindOf(ev) in kinds
  }

  // ---- pushing entries one after the other -----------------------------------------------------

  /** Memory and directory after pushing the entries in order. */
  ghost function AfterPushes(cfg: BufferConfig, codec: Codec, memory: seq<LogEntry>, files: Files, entries: seq<LogEntry>)
    : (seq<LogEntry>, Files)
    requires cfg.Valid()
    decreases |entries|
  {
    if entries == [] then (memory, files)
    else
      AfterPushes(cfg, codec, PushedMemory(cfg, memory, entries[0]),
                  if |memory| >= cfg.memoryMax then FlushedFiles(cfg, codec, memory, files) else files,
                  entries[1..])
  }

  lemma {:induction false} WrittenAllConcat(files: Files, limit: nat, codec: Codec, a: seq<seq<LogEntry>>, b: seq<seq<LogEntry>>)
    ensures WrittenAll(files, limit, codec, a + b) == WrittenAll(WrittenAll(files, limit, codec, a), limit, codec, b)
    decreases |a|
  {
    hide Written;
    if a == [] {
      assert a + b == b;
    } else {
      assert (a + b)[1..] == a[1..] + b;
      WrittenAllConcat(Written(files, limit, codec.encode(a[0])), limit, codec, a[1..], b);
    }
  }

  ghost predicate PiecesOf(slices: seq<seq<LogEntry>>, k: nat)
  {
    forall i :: 0 <= i < |slices| ==> 0 < |slices[i]| <= k
  }

  lemma ChunksArePieces(s: seq<LogEntry>, k: nat)
    requires k > 0
    ensures PiecesOf(Chunks(s, k), k) && Flatten(Chunks(s, k)) == s
  {
    ChunksFlatten(s, k);
    hide Chunks, Flatten;
    forall i | 0 <= i < |Chunks(s, k)| ensures 0 < |Chunks(s, k)[i]| <= k {
      ChunkAt(s, k, i);
    }
  }

  /** A flush writes the entries in order, in full slices of the configured size and a
      last one of what is left. */
  lemma FlushedInOrder(cfg: BufferConfig, codec: Codec, memory: seq<LogEntry>, files: Files) returns (slices: seq<seq<LogEntry>>)
    requires cfg.Valid()
    ensures FlushedFiles(cfg, codec, memory, files) == WrittenAll(files, cfg.maxBytes, codec, slices)
    ensures Flatten(slices) == memory && PiecesOf(slices, cfg.chunkMax)
    ensures forall i :: 0 <= i < |slices| - 1 ==> |slices[i]| == cfg.chunkMax
  {
    slices := Chunks(memory, cfg.chunkMax);
    ChunksArePieces(memory, cfg.chunkMax);
    hide Chunks, Flatten, WrittenAll, PiecesOf;
    forall i | 0 <= i < |slices| - 1 ensures |slices[i]| == cfg.chunkMax {
      ChunkAt(memory, cfg.chunkMax, i);
    }
  }

  /** Pushing the entries has led from (memory, files) to (m, f), writing these slices. */
  ghost predicate PushedThrough(cfg: BufferConfig, codec: Codec, memory: seq<LogEntry>, files: Files, entries: seq<LogEntry>,
                                m: seq<LogEntry>, f: Files, slices: seq<seq<LogEntry>>)
  {
    && Flatten(slices) + m == memory + entries && |m| <= cfg.memoryMax && (entries != [] ==> m != [])
    && f == WrittenAll(files, cfg.maxBytes, codec, slices) && PiecesOf(slices, cfg.chunkMax)
    && (|memory| + |entries| <= cfg.memoryMax ==> slices == [] && m == memory + entries && f == files)
  }

  lemma ThroughFlush(cfg: BufferConfig, codec: Codec, memory: seq<LogEntry>, files: Files, e: LogEntry, rest: seq<LogEntry>,
                     m: seq<LogEntry>, f: Files, more: seq<seq<LogEntry>>)
    requires cfg.Valid() && |memory| >= cfg.memoryMax
    requires PushedThrough(cfg, codec, [e], FlushedFiles(cfg, codec, memory, files), rest, m, f, more)
    ensures PushedThrough(cfg, codec, memory, files, [e] + rest, m, f, Chunks(memory, cfg.chunkMax) + more)
  {
    var flushed := Chunks(memory, cfg.chunkMax);
    ChunksArePieces(memory, cfg.chunkMax);
    WrittenAllConcat(files, cfg.maxBytes, codec, flushed, more);
    FlattenAppend(flushed, more);
    PiecesConcat(flushed, more, cfg.chunkMax);
    hide WrittenAll, Chunks, Flatten, PiecesOf;
    Regrouped(Flatten(flushed + more), memory, Flatten(more), m, [e] + rest);
    assert rest == [] ==> m == [e] + [] == [e];
  }

  lemma PiecesConcat(a: seq<seq<LogEntry>>, b: seq<seq<LogEntry>>, k: nat)
    requires PiecesOf(a, k) && PiecesOf(b, k)
    ensures PiecesOf(a + b, k)
  {
  }

  lemma Regrouped<T>(all: seq<T>, a: seq<T>, b: seq<T>, c: seq<T>, rest: seq<T>)
    requires all == a + b && b + c == rest
    ensures all + c == a + rest
  {
  }

  lemma ThroughMemory(cfg: BufferConfig, codec: Codec, memory: seq<LogEntry>, files: Files, e: LogEntry, rest: seq<LogEntry>,
                      m: seq<LogEntry>, f: Files, slices: seq<seq<LogEntry>>)
    requires cfg.Valid() && |memory| < cfg.memoryMax
    requires PushedThrough(cfg, codec, memory + [e], files, rest, m, f, slices)
    ensures PushedThrough(cfg, codec, memory, files, [e] + rest, m, f, slices)
  {
    hide WrittenAll, Flatten;
    ConcatAssoc(memory, [e], rest);
  }

  /** Nothing is lost or reordered: the slices written, in order, followed by the new memory
      are the old memory followed by the entries; the directory is what writing those
      slices gives; and if everything fits into memory nothing is written. */
  lemma {:induction false} PushesKeepOrder(cfg: BufferConfig, codec: Codec, memory: seq<LogEntry>, files: Files, entries: seq<LogEntry>)
    returns (slices: seq<seq<LogEntry>>)
    requires cfg.Valid() && |memory| <= cfg.memoryMax
    ensures var (m, f) := AfterPushes(cfg, codec, memory, files, entries);
      PushedThrough(cfg, codec, memory, files, entries, m, f, slices)
    decreases |entries|
  {
    if entries == [] {
      slices := [];
      assert [] + memory == memory == memory + entries;
    } else {
      var e, rest := entries[0], entries[1..];
      assert entries == [e] + rest;
      hide PushedThrough, WrittenAll, Chunks;
      if |memory| >= cfg.memoryMax {
        var files' := FlushedFiles(cfg, codec, memory, files);
        var more := PushesKeepOrder(cfg, codec, [e], files', rest);
        slices := Chunks(memory, cfg.chunkMax) + more;
        var (m, f) := AfterPushes(cfg, codec, [e], files', rest);
        ThroughFlush(cfg, codec, memory, files, e, rest, m, f, more);
      } else {
        slices := PushesKeepOrder(cfg, codec, memory + [e], files, rest);
        var (m, f) := AfterPushes(cfg, codec, memory + [e], files, rest);
        ThroughMemory(cfg, codec, memory, files, e, rest, m, f, slices);
      }
    }
  }

  // ---- a lock section ----------------------------------------------------------------------------

  /** The directory with the data renamed to the next chunk name. */
  ghost function Placed(files: Files, data: seq<Byte>): Files
  {
    var n := NextNumber(files);
    (files - {TmpName(n)})[ChunkName(n) := data]
  }

  /** The lock holder is where its own steps have brought it, and nobody has interfered. */
  ghost predicate Settled(cfg: Config, s: State)
  {
    && s.lock.Held?
    && (s.lock.stage.Ready? <==> s.lock.slices == [])
    && (!s.lock.stage.Ready? ==> s.memory == [])
    && |s.memory| <= cfg.buffer.memoryMax
    && match s.lock.stage
       case Listing => TotalBytes(s.files) > cfg.buffer.maxBytes
       case Evicting(path) =>
         TotalBytes(s.files) > cfg.buffer.maxBytes && ChunkFiles(s.files) != {} && path == OldestChunk(s.files)
       case Numbered(n) => n == NextNumber(s.files) < U64
       case Writing(n, k) =>
         && n == NextNumber(s.files) < U64 && TmpName(n) in s.files
         && k <= |cfg.codec.encode(s.lock.slices[0])|
         && s.files[TmpName(n)] == cfg.codec.encode(s.lock.slices[0])[..k]
       case _ => true
  }

  /** The directory once all slices in hand are written. */
  ghost function Remaining(cfg: Config, s: State): Files
    requires Settled(cfg, s)
  {
    var Held(_, slices, stage, _) := s.lock;
    if stage.Ready? then s.files
    else if stage.Naming? || stage.Numbered? || stage.Writing? then
      WrittenAll(Placed(s.files, cfg.codec.encode(slices[0])), cfg.buffer.maxBytes, cfg.codec, slices[1..])
    else WrittenAll(s.files, cfg.buffer.maxBytes, cfg.codec, slices)
  }

  /** Memory and directory when the lock holder is done. */
  ghost function Goal(cfg: Config, s: State): (seq<LogEntry>, Files)
    requires cfg.Valid() && Settled(cfg, s)
  {
    AfterPushes(cfg.buffer, cfg.codec, s.memory, Remaining(cfg, s), s.lock.pushes)
  }

  /** A step keeps the goal. */
  ghost predicate Towards(cfg: Config, s: State, t: State)
    requires cfg.Valid() && Settled(cfg, s)
  {
    Settled(cfg, t) && Goal(cfg, t) == Goal(cfg, s) && t.lock.owner == s.lock.owner && t.pub == s.pub
  }

  lemma NoEviction(files: Files, limit: nat, codec: Codec, slices: seq<seq<LogEntry>>)
    requires slices != [] && (TotalBytes(files) <= limit || ChunkFiles(files) == {})
    ensures WrittenAll(files, limit, codec, slices)
         == WrittenAll(Placed(files, codec.encode(slices[0])), limit, codec, slices[1..])
  {
    hide TotalBytes, TmpName, ChunkName;
  }

  lemma OneEviction(files: Files, limit: nat, codec: Codec, slices: seq<seq<LogEntry>>)
    requires TotalBytes(files) > limit && ChunkFiles(files) != {}
    ensures WrittenAll(files, limit, codec, slices) == WrittenAll(files - {OldestChunk(files)}, limit, codec, slices)
         || slices == []
  {
    hide TotalBytes, TmpName, ChunkName;
  }

  lemma PushTowards(cfg: Config, s: State)
    requires cfg.Valid() && Settled(cfg, s) && CanPush(s)
    ensures Towards(cfg, s, DoPush(cfg, s).state)
  {
    ChunksNotEmpty(s.memory, cfg.buffer.chunkMax);
    hide TotalBytes, WrittenAll, Chunks, Placed, NextNumber, TmpName;
    var t := DoPush(cfg, s).state;
    var e, rest := s.lock.pushes[0], s.lock.pushes[1..];
    if |s.memory| >= cfg.buffer.memoryMax {
      assert [] + [e] == [e];
    }
  }

  lemma SizeTowards(cfg: Config, s: State)
    requires cfg.Valid() && Settled(cfg, s) && CanCheckSize(s)
    ensures Towards(cfg, s, DoCheckSize(cfg, s).state)
  {
    if TotalBytes(s.files) <= cfg.buffer.maxBytes {
      NoEviction(s.files, cfg.buffer.maxBytes, cfg.codec, s.lock.slices);
    }
    hide TotalBytes, WrittenAll, Placed, NextNumber, AfterPushes;
  }

  lemma ListTowards(cfg: Config, s: State)
    requires cfg.Valid() && Settled(cfg, s) && CanListOldest(s)
    ensures Towards(cfg, s, DoListOldest(s).state)
  {
    hide TotalBytes, WrittenAll, Placed, NextNumber, AfterPushes;
  }

  lemma DropState(cfg: Config, s: State)
    requires Settled(cfg, s) && CanDropOldest(s)
    ensures !Misses(s)
    ensures var t := DoDropOldest(cfg, s).state;
      t == s.(files := s.files - {OldestChunk(s.files)}, lock := s.lock.(stage := Relisting), stale := t.stale)
  {
    hide TotalBytes, IsChunkFile, EntriesAt, Prefix, Suffix, Flatten;
    assert s.lock.stage.path in ChunkFiles(s.files);
  }

  lemma DropTowards(cfg: Config, s: State)
    requires cfg.Valid() && Settled(cfg, s) && CanDropOldest(s)
    ensures Towards(cfg, s, DoDropOldest(cfg, s).state) && !Misses(s)
  {
    DropState(cfg, s);
    OneEviction(s.files, cfg.buffer.maxBytes, cfg.codec, s.lock.slices);
    hide TotalBytes, WrittenAll, Placed, NextNumber, AfterPushes, IsChunkFile, DoDropOldest, Hits;
  }

  lemma RelistTowards(cfg: Config, s: State)
    requires cfg.Valid() && Settled(cfg, s) && CanRelist(s)
    ensures Towards(cfg, s, DoRelist(s).state)
  {
    if ChunkFiles(s.files) == {} {
      NoEviction(s.files, cfg.buffer.maxBytes, cfg.codec, s.lock.slices);
    }
    hide TotalBytes, WrittenAll, Placed, NextNumber, AfterPushes, IsChunkFile;
  }

  lemma PickTowards(cfg: Config, s: State)
    requires cfg.Valid() && Settled(cfg, s) && CanPickNumber(s)
    ensures Towards(cfg, s, DoPickNumber(s).state)
  {
    hide TotalBytes, WrittenAll, Placed, NextNumber, AfterPushes;
  }

  lemma TmpHasNoNumber(files: Files, n: nat, data: seq<Byte>)
    ensures NextNumber(files[TmpName(n) := data]) == NextNumber(files)
    ensures n == NextNumber(files) ==> forall d :: Placed(files[TmpName(n) := data], d) == Placed(files, d)
  {
    TmpNameIgnored(n);
    var max := NextNumber(files) - 1;
    hide SeqNumber, NextNumber, TmpName, ChunkName;
    var more := files[TmpName(n) := data];
    assert IsMaxSeq(more.Keys, max) by {
      assert IsMaxSeq(files.Keys, max) by { MaxIs(files); }
      assert more.Keys == files.Keys + {TmpName(n)};
    }
    NextNumberUnique(more, max);
    assert more - {TmpName(n)} == files - {TmpName(n)};
  }

  lemma MaxIs(files: Files)
    ensures IsMaxSeq(files.Keys, NextNumber(files) - 1)
  {
  }

  lemma WriteTowards(cfg: Config, s: State, k: nat)
    requires cfg.Valid() && Settled(cfg, s) && CanWriteTmp(cfg, s, k)
    ensures Towards(cfg, s, DoWriteTmp(cfg, s, k).state)
  {
    var data := cfg.codec.encode(s.lock.slices[0])[..k];
    TmpHasNoNumber(s.files, s.lock.stage.n, data);
    hide TotalBytes, WrittenAll, Placed, NextNumber, AfterPushes, TmpName, IsChunkFile;
  }

  lemma RenamePlaces(cfg: Config, s: State)
    requires Settled(cfg, s) && CanRename(cfg, s)
    ensures var t := DoRename(cfg, s).state;
      && t.files == Placed(s.files, cfg.codec.encode(s.lock.slices[0])) && t.memory == s.memory
      && t.lock == s.lock.(slices := s.lock.slices[1..], stage := if |s.lock.slices| > 1 then SizeCheck else Ready)
      && t.pub == s.pub
  {
    hide TotalBytes, NextNumber, TmpName, ChunkName, IsChunkFile;
    var data := cfg.codec.encode(s.lock.slices[0]);
    assert data[..|data|] == data;
  }

  lemma RenameTowards(cfg: Config, s: State)
    requires cfg.Valid() && Settled(cfg, s) && CanRename(cfg, s)
    ensures Towards(cfg, s, DoRename(cfg, s).state)
  {
    RenamePlaces(cfg, s);
    hide TotalBytes, Placed, NextNumber, AfterPushes, TmpName, ChunkName, IsChunkFile, Written, DoRename, CanRename;
  }

  lemma StepTowards(cfg: Config, s: State, ev: Event)
    requires cfg.Valid() && Settled(cfg, s) && Enabled(cfg, s, ev) && KindOf(ev) == Holding
    ensures Towards(cfg, s, Step(cfg, s, ev).state)
  {
    hide Towards, Settled;
    match ev
    case Push => PushTowards(cfg, s);
    case CheckSize => SizeTowards(cfg, s);
    case ListOldest => ListTowards(cfg, s);
    case DropOldest => DropTowards(cfg, s);
    case Relist => RelistTowards(cfg, s);
    case PickNumber => PickTowards(cfg, s);
    case WriteTmp(k) => WriteTowards(cfg, s, k);
    case Rename => RenameTowards(cfg, s);
    case _ =>
  }

  /** Every run of the lock holder's own steps keeps the goal. */
  lemma {:induction false} HolderKeepsGoal(cfg: Config, s: State, events: seq<Event>)
    requires cfg.Valid() && Settled(cfg, s) && IsRun(cfg, s, events) && Only(events, {Holding})
    ensures Towards(cfg, s, Run(cfg, s, events).state)
    decreases |events|
  {
    if events != [] {
      assert events[0] in events;
      hide Settled, Goal, Step, Enabled, KindOf;
      StepTowards(cfg, s, events[0]);
      HolderKeepsGoal(cfg, Step(cfg, s, events[0]).state, events[1..]);
    }
  }

  /** And when it is done, the goal is reached. */
  lemma HolderReachesGoal(cfg: Config, s: State, events: seq<Event>)
    requires cfg.Valid() && Settled(cfg, s) && IsRun(cfg, s, events) && Only(events, {Holding})
    requires CanRelease(Run(cfg, s, events).state)
    ensures var t := Run(cfg, s, events).state; (t.memory, t.files) == Goal(cfg, s) && t.pub == s.pub
    ensures var t := Run(cfg, s, events).state; t.lock == Held(s.lock.owner, [], Ready, [])
  {
    HolderKeepsGoal(cfg, s, events);
    hide Run, IsRun, Only, WrittenAll;
  }
}
