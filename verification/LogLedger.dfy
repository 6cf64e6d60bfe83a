/** What every run of the log pipeline keeps: the state invariant, and the ledger
    that accounts for every accepted entry (src/orchestrator.rs:121-226). */
module LogLedger {
  import opened Prelude
  import Decimal
  import opened LogEntries
  import opened SpoolNames
  import opened Spool
  import opened Orchestrator

  // ---- the invariant -----------------------------------------------------------------------

  ghost predicate LockInv(cfg: Config, s: State)
  {
    match s.lock
    case Free => !s.pub.Requeueing? && !s.pub.Tailing?
    case Held(owner, slices, stage, pushes) =>
      && (stage.Ready? <==> slices == [])
      && (!stage.Ready? ==> s.memory == [])
      && (forall i :: 0 <= i < |slices| ==> slices[i] != [])
      && (stage.Evicting? ==> IsChunkFile(stage.path))
      && (stage.Numbered? ==> ChunkName(stage.n) !in s.files)
      && (stage.Writing? ==>
            && stage.k <= |cfg.codec.encode(slices[0])|
            && TmpName(stage.n) in s.files
            && s.files[TmpName(stage.n)] == cfg.codec.encode(slices[0])[..stage.k]
            && ChunkName(stage.n) !in s.files)
      && (owner.Requeue? <==> s.pub.Requeueing?)
      && (owner.Tail? <==> s.pub.Tailing?)
      && (owner.Tail? ==> 0 < owner.published < |owner.entries|)
      && (owner.FinalFlush? ==> s.pub.Stopping? && pushes == [])
  }

  ghost predicate PubInv(cfg: Config, s: State)
  {
    && (s.pub.Memory? ==> s.pub.vec != [] && Sending(s.pub))
    && (s.pub.Disk? ==> s.pub.published < |s.pub.entries| && Sending(s.pub))
    && (s.pub.FailedTail? ==> 0 < s.pub.published < |s.pub.entries|)
    && (PublishedPath(s).Some? ==> IsChunkFile(PublishedPath(s).value))
    && (PublishedPath(s).Some? && !s.stale ==> ChunkUntouched(cfg, s, PublishedPath(s).value))
  }

  /** Entries of the chunk being published, as read. */
  function ReadEntries(s: State): seq<LogEntry>
  {
    match s.pub
    case Disk(_, entries, _, _) => entries
    case Deleting(_, entries) => entries
    case FailedTail(_, entries, _) => entries
    case Tailing => if s.lock.Held? && s.lock.owner.Tail? then s.lock.owner.entries else []
    case _ => []
  }

  /** The chunk being published is still what it was when it was picked or read. */
  ghost predicate ChunkUntouched(cfg: Config, s: State, path: string)
  {
    && path in ChunkFiles(s.files)
    && (s.pub.Corrupt? ==> cfg.codec.decode(s.files[path]) == None)
    && (!s.pub.Corrupt? && !s.pub.Picked? ==> cfg.codec.decode(s.files[path]) == Some(ReadEntries(s)))
  }

  /** Every chunk on disk is whole: a slice the buffer was given, or a chunk of the
      first start that nobody touched. */
  ghost predicate ChunksWhole(cfg: Config, base: Files, files: Files, origin: map<string, seq<LogEntry>>)
  {
    forall c :: c in ChunkFiles(files) ==>
      if c in origin then files[c] == cfg.codec.encode(origin[c])
      else c in base && files[c] == base[c]
  }

  ghost predicate Inv(cfg: Config, base: Files, s: State)
  {
    && LockInv(cfg, s)
    && PubInv(cfg, s)
    && ChunksWhole(cfg, base, s.files, s.origin)
    && (!s.mayHaveChunks ==> ChunkFiles(s.files) == {})
    && |s.memory| <= cfg.buffer.memoryMax
  }

  lemma InitialInv(cfg: Config, s: State)
    requires Initial(s)
    ensures Inv(cfg, s.files, s)
  {
  }

  // ---- counting entries on disk ------------------------------------------------------------------

  /** Occurrences of x in the decodable chunks of a directory. */
  ghost function OnDisk(codec: Codec, files: Files, x: LogEntry): nat
  {
    if files == map[] then 0
    else
      var n :| n in files;
      Count(EntriesAt(codec, files, n), x) + OnDisk(codec, files - {n}, x)
  }

  lemma {:induction false} OnDiskSplit(codec: Codec, files: Files, n: string, x: LogEntry)
    requires n in files
    ensures OnDisk(codec, files, x) == Count(EntriesAt(codec, files, n), x) + OnDisk(codec, files - {n}, x)
    decreases |files|
  {
    hide IsChunkFile;
    var m :| m in files && OnDisk(codec, files, x) == Count(EntriesAt(codec, files, m), x) + OnDisk(codec, files - {m}, x);
    if m != n {
      OnDiskSplit(codec, files - {m}, n, x);
      OnDiskSplit(codec, files - {n}, m, x);
      assert files - {m} - {n} == files - {n} - {m};
      assert EntriesAt(codec, files - {m}, n) == EntriesAt(codec, files, n);
      assert EntriesAt(codec, files - {n}, m) == EntriesAt(codec, files, m);
    }
  }

  lemma OnDiskRemove(codec: Codec, files: Files, n: string, x: LogEntry)
    ensures OnDisk(codec, files, x) == Count(EntriesAt(codec, files, n), x) + OnDisk(codec, files - {n}, x)
  {
    hide IsChunkFile;
    if n in files {
      OnDiskSplit(codec, files, n, x);
    } else {
      assert files - {n} == files;
    }
  }

  lemma OnDiskPut(codec: Codec, files: Files, n: string, data: seq<Byte>, x: LogEntry)
    ensures OnDisk(codec, files[n := data], x) + Count(EntriesAt(codec, files, n), x)
         == OnDisk(codec, files, x) + Count(EntriesAt(codec, files[n := data], n), x)
  {
    hide IsChunkFile;
    OnDiskRemove(codec, files, n, x);
    OnDiskRemove(codec, files[n := data], n, x);
    assert files[n := data] - {n} == files - {n};
  }

  /** Files that are not chunks hold no entries. */
  lemma OnDiskOther(codec: Codec, files: Files, n: string, data: seq<Byte>, x: LogEntry)
    requires !IsChunkFile(n)
    ensures OnDisk(codec, files[n := data], x) == OnDisk(codec, files, x) == OnDisk(codec, files - {n}, x)
  {
    hide IsChunkFile;
    OnDiskPut(codec, files, n, data, x);
    OnDiskRemove(codec, files, n, x);
  }

  lemma TmpNameStart(n: nat)
    ensures TmpName(n) != [] && Decimal.IsDigit(TmpName(n)[0])
  {
  }

  lemma BookkeepingIsNotSpool(name: string)
    requires name in BOOKKEEPING
    ensures !IsChunkFile(name) && SeqNumber(name) == None && forall n :: name != TmpName(n)
  {
    forall n ensures name != TmpName(n) {
      hide TmpName;
      TmpNameStart(n);
      assert name[0] == 'm' || name[0] == 'c';
    }
    if name == "metrics_seq.cbor" {
      SplitAtLastDot("metrics_seq", "cbor");
      assert "metrics_seq" + "." + "cbor" == name;
      assert "metrics_seq"[0] == 'm';
    } else if name == "metrics_seq.cbor.tmp" {
      SplitAtLastDot("metrics_seq.cbor", "tmp");
      assert "metrics_seq.cbor" + "." + "tmp" == name;
    } else if name == "crashdump_state.json" {
      SplitAtLastDot("crashdump_state", "json");
      assert "crashdump_state" + "." + "json" == name;
    } else {
      SplitAtLastDot("crashdump_state.json", "tmp");
      assert "crashdump_state.json" + "." + "tmp" == name;
    }
  }

  // ---- every step keeps the invariant -----------------------------------------------------------

  lemma IngestKeepsInv(cfg: Config, base: Files, s: State, e: LogEntry)
    requires cfg.Valid() && Inv(cfg, base, s) && CanIngest(s)
    ensures Inv(cfg, base, DoIngest(s, e).state)
  {
    hide ChunkName, IsChunkFile, TmpName, SeqNumber, Flatten, TotalBytes, ChunksWhole;
  }

  /** What the publisher is at does not depend on the lock holder's progress. */
  lemma SamePub(cfg: Config, s: State, t: State)
    requires PubInv(cfg, s) && s.lock.Held? && t.lock.Held? && t.lock.owner == s.lock.owner
    requires t.pub == s.pub && t.files == s.files && t.stale == s.stale
    ensures PubInv(cfg, t)
  {
    hide IsChunkFile;
  }

  lemma PushKeepsInv(cfg: Config, base: Files, s: State)
    requires cfg.Valid() && Inv(cfg, base, s) && CanPush(s)
    ensures Inv(cfg, base, DoPush(cfg, s).state)
  {
    ChunksNotEmpty(s.memory, cfg.buffer.chunkMax);
    SamePub(cfg, s, DoPush(cfg, s).state);
    hide ChunkName, IsChunkFile, TmpName, SeqNumber, Flatten, TotalBytes, ChunksWhole, Chunks, PubInv;
  }

  lemma CheckSizeKeepsInv(cfg: Config, base: Files, s: State)
    requires cfg.Valid() && Inv(cfg, base, s) && CanCheckSize(s)
    ensures Inv(cfg, base, DoCheckSize(cfg, s).state)
  {
    hide ChunkName, IsChunkFile, TmpName, SeqNumber, Flatten, TotalBytes, ChunksWhole;
  }

  lemma ListOldestKeepsInv(cfg: Config, base: Files, s: State)
    requires cfg.Valid() && Inv(cfg, base, s) && CanListOldest(s)
    ensures Inv(cfg, base, DoListOldest(s).state)
  {
    hide ChunkName, IsChunkFile, TmpName, SeqNumber, Flatten, TotalBytes, ChunksWhole;
  }

  lemma DropOldestKeepsInv(cfg: Config, base: Files, s: State)
    requires cfg.Valid() && Inv(cfg, base, s) && CanDropOldest(s)
    ensures Inv(cfg, base, DoDropOldest(cfg, s).state)
  {
    hide ChunkName, IsChunkFile, TmpName, SeqNumber, Flatten, TotalBytes, EntriesAt;
  }

  lemma RelistKeepsInv(cfg: Config, base: Files, s: State)
    requires cfg.Valid() && Inv(cfg, base, s) && CanRelist(s)
    ensures Inv(cfg, base, DoRelist(s).state)
  {
    hide ChunkName, IsChunkFile, TmpName, SeqNumber, Flatten, TotalBytes, ChunksWhole;
  }

  lemma PickNumberKeepsInv(cfg: Config, base: Files, s: State)
    requires cfg.Valid() && Inv(cfg, base, s) && CanPickNumber(s)
    ensures Inv(cfg, base, DoPickNumber(s).state)
  {
    hide ChunkName, IsChunkFile, TmpName, SeqNumber, Flatten, TotalBytes, ChunksWhole;
    NextNameFresh(s.files);
  }

  lemma WriteTmpKeepsInv(cfg: Config, base: Files, s: State, k: nat)
    requires cfg.Valid() && Inv(cfg, base, s) && CanWriteTmp(cfg, s, k)
    ensures Inv(cfg, base, DoWriteTmp(cfg, s, k).state)
  {
    hide ChunkName, IsChunkFile, TmpName, SeqNumber, Flatten, TotalBytes;
    TmpNameIgnored(s.lock.stage.n);
    ChunkNameRecognised(s.lock.stage.n);
  }

  lemma RenameKeepsInv(cfg: Config, base: Files, s: State)
    requires cfg.Valid() && Inv(cfg, base, s) && CanRename(cfg, s)
    ensures Inv(cfg, base, DoRename(cfg, s).state)
  {
    hide ChunkName, IsChunkFile, TmpName, SeqNumber, Flatten, TotalBytes;
    TmpNameIgnored(s.lock.stage.n);
    ChunkNameRecognised(s.lock.stage.n);
    assert s.files[TmpName(s.lock.stage.n)] == cfg.codec.encode(s.lock.slices[0]);
  }

  lemma TailKeepsInv(cfg: Config, base: Files, s: State)
    requires cfg.Valid() && Inv(cfg, base, s) && CanRelease(s) && s.lock.owner.Tail?
    ensures Inv(cfg, base, DoRelease(cfg, s).state)
  {
    hide ChunkName, IsChunkFile, TmpName, SeqNumber, Flatten, TotalBytes, EntriesAt;
  }

  lemma PlainReleaseKeepsInv(cfg: Config, base: Files, s: State)
    requires cfg.Valid() && Inv(cfg, base, s) && CanRelease(s) && !s.lock.owner.Tail?
    ensures Inv(cfg, base, DoRelease(cfg, s).state)
  {
    hide ChunkName, IsChunkFile, TmpName, SeqNumber, Flatten, TotalBytes, DeleteChunk, ChunksWhole;
  }

  lemma ReleaseKeepsInv(cfg: Config, base: Files, s: State)
    requires cfg.Valid() && Inv(cfg, base, s) && CanRelease(s)
    ensures Inv(cfg, base, DoRelease(cfg, s).state)
  {
    hide Inv, DoRelease;
    if s.lock.owner.Tail? {
      TailKeepsInv(cfg, base, s);
    } else {
      PlainReleaseKeepsInv(cfg, base, s);
    }
  }

  lemma DrainKeepsInv(cfg: Config, base: Files, s: State)
    requires cfg.Valid() && Inv(cfg, base, s) && CanDrain(s)
    ensures Inv(cfg, base, DoDrain(s).state)
  {
    hide ChunkName, IsChunkFile, TmpName, SeqNumber, Flatten, TotalBytes, ChunksWhole;
  }

  lemma PickChunkKeepsInv(cfg: Config, base: Files, s: State)
    requires cfg.Valid() && Inv(cfg, base, s) && CanPickChunk(s)
    ensures Inv(cfg, base, DoPickChunk(s).state)
  {
    hide ChunkName, IsChunkFile, TmpName, SeqNumber, Flatten, TotalBytes, ChunksWhole;
  }

  lemma ReadKeepsInv(cfg: Config, base: Files, s: State)
    requires cfg.Valid() && Inv(cfg, base, s) && CanRead(s)
    ensures Inv(cfg, base, DoRead(cfg, s).state)
  {
    hide ChunkName, IsChunkFile, TmpName, SeqNumber, Flatten, TotalBytes, ChunksWhole;
  }

  lemma HandOffKeepsInv(cfg: Config, base: Files, s: State)
    requires cfg.Valid() && Inv(cfg, base, s) && CanHandOff(s)
    ensures Inv(cfg, base, DoHandOff(s).state)
  {
    hide ChunkName, IsChunkFile, TmpName, SeqNumber, Flatten, TotalBytes, ChunksWhole;
  }

  /** Steps that only move the publisher within its batch or chunk. */
  lemma PublisherMoves(cfg: Config, base: Files, s: State, pub: Publisher)
    requires Inv(cfg, base, s) && !s.pub.Requeueing? && !s.pub.Tailing? && !s.pub.Stopping?
    requires PubInv(cfg, s.(pub := pub)) && !pub.Requeueing? && !pub.Tailing?
    ensures Inv(cfg, base, s.(pub := pub))
  {
    hide ChunkName, IsChunkFile, TmpName, SeqNumber, Flatten, TotalBytes, ChunksWhole, PubInv;
  }

  lemma BatchDoneKeepsInv(cfg: Config, base: Files, s: State)
    requires cfg.Valid() && Inv(cfg, base, s) && CanBatchDone(s)
    ensures Inv(cfg, base, DoBatchDone(s).state)
  {
    hide ChunkName, IsChunkFile, TmpName, SeqNumber, Flatten, TotalBytes, ChunksWhole, LockInv;
    PublisherMoves(cfg, base, s, DoBatchDone(s).state.pub);
  }

  lemma FailKeepsInv(cfg: Config, base: Files, s: State)
    requires cfg.Valid() && Inv(cfg, base, s) && CanHandOff(s)
    ensures Inv(cfg, base, DoFail(s).state)
  {
    hide ChunkName, IsChunkFile, TmpName, SeqNumber, Flatten, TotalBytes, ChunksWhole, LockInv;
    PublisherMoves(cfg, base, s, DoFail(s).state.pub);
  }

  lemma LockRequeueKeepsInv(cfg: Config, base: Files, s: State)
    requires cfg.Valid() && Inv(cfg, base, s) && CanLockRequeue(s)
    ensures Inv(cfg, base, DoLockRequeue(s).state)
  {
    hide ChunkName, IsChunkFile, TmpName, SeqNumber, Flatten, TotalBytes, ChunksWhole;
  }

  lemma LockTailKeepsInv(cfg: Config, base: Files, s: State)
    requires cfg.Valid() && Inv(cfg, base, s) && CanLockTail(s)
    ensures Inv(cfg, base, DoLockTail(s).state)
  {
    hide ChunkName, IsChunkFile, TmpName, SeqNumber, Flatten, TotalBytes, ChunksWhole;
  }

  lemma DeleteKeepsInv(cfg: Config, base: Files, s: State)
    requires cfg.Valid() && Inv(cfg, base, s) && CanDelete(s)
    ensures Inv(cfg, base, DoDelete(cfg, s).state)
  {
    hide ChunkName, IsChunkFile, TmpName, SeqNumber, Flatten, TotalBytes;
    if s.lock.Held? && s.lock.stage.Writing? {
      TmpNameIgnored(s.lock.stage.n);
    }
  }

  lemma CancelKeepsInv(cfg: Config, base: Files, s: State)
    requires cfg.Valid() && Inv(cfg, base, s) && CanCancel(s)
    ensures Inv(cfg, base, DoCancel(s).state)
  {
    hide ChunkName, IsChunkFile, TmpName, SeqNumber, Flatten, TotalBytes, ChunksWhole;
  }

  lemma FinalFlushKeepsInv(cfg: Config, base: Files, s: State)
    requires cfg.Valid() && Inv(cfg, base, s) && CanFinalFlush(s)
    ensures Inv(cfg, base, DoFinalFlush(cfg, s).state)
  {
    ChunksNotEmpty(s.memory, cfg.buffer.chunkMax);
    hide ChunkName, IsChunkFile, TmpName, SeqNumber, Flatten, TotalBytes, ChunksWhole, Chunks;
  }

  lemma RestartKeepsInv(cfg: Config, base: Files, s: State)
    requires cfg.Valid() && Inv(cfg, base, s)
    ensures Inv(cfg, base, DoRestart(s).state)
  {
    hide ChunkName, IsChunkFile, TmpName, SeqNumber, Flatten, TotalBytes, ChunksWhole;
  }

  lemma OtherFileKeepsInv(cfg: Config, base: Files, s: State, name: string, data: seq<Byte>)
    requires cfg.Valid() && Inv(cfg, base, s) && !IsChunkFile(name) && forall n :: name != TmpName(n)
    ensures Inv(cfg, base, s.(files := s.files[name := data]))
  {
    hide ChunkName, IsChunkFile, TmpName, SeqNumber, Flatten, TotalBytes;
    if s.lock.Held? && (s.lock.stage.Numbered? || s.lock.stage.Writing?) {
      ChunkNameRecognised(s.lock.stage.n);
    }
    assert ChunkFiles(s.files[name := data]) == ChunkFiles(s.files);
  }

  lemma BookkeepKeepsInv(cfg: Config, base: Files, s: State, name: string, data: seq<Byte>)
    requires cfg.Valid() && Inv(cfg, base, s) && name in BOOKKEEPING
    ensures Inv(cfg, base, DoBookkeep(s, name, data).state)
  {
    hide Inv, IsChunkFile, TmpName;
    BookkeepingIsNotSpool(name);
    OtherFileKeepsInv(cfg, base, s, name, data);
  }

  // ---- every step conserves entries ---------------------------------------------------------------

  /** Entries the publisher holds between draining them and settling or requeueing. */
  function Drained(pub: Publisher): seq<LogEntry>
  {
    match pub
    case Memory(vec, _) => vec
    case FailedBatch(batch) => batch
    case _ => []
  }

  /** Copies of x the daemon holds: queued, on disk, in the lock holder's hands, or
      drained by the publisher. */
  ghost function Holds(cfg: Config, s: State, x: LogEntry): nat
  {
    Count(s.memory, x) + OnDisk(cfg.codec, s.files, x) + Count(Slices(s), x) + Count(Pushes(s), x) + Count(Drained(s.pub), x)
  }

  /** Entries that left the daemon's hands, by hand-off or loss. */
  function Left(l: Ledger, x: LogEntry): nat
  {
    Count(l.settled, x) + Count(l.evicted, x) + Count(l.abandoned, x) + Count(l.cancelled, x)
    + Count(l.lostAtExit, x) + Count(l.flushLost, x) + Count(l.clobbered, x)
  }

  /** Nothing appears or disappears unaccounted, and every hand-off is either
      settled, for an entry kept for another attempt, or still in progress. */
  ghost predicate Conserves(cfg: Config, s: State, o: Outcome, x: LogEntry)
  {
    && Holds(cfg, s, x) + Count(o.bill.accepted, x) + Count(o.bill.surplus, x) + Count(Copies(o.state), x)
       == Holds(cfg, o.state, x) + Left(o.bill, x) + Count(Copies(s), x)
    && Count(o.bill.handed, x) + Count(Sent(s), x)
       == Count(o.bill.settled, x) + Count(o.bill.resent, x) + Count(Sent(o.state), x)
  }

  lemma RenameAddsSlice(cfg: Config, s: State, x: LogEntry)
    requires cfg.Valid() && LockInv(cfg, s) && CanRename(cfg, s)
    ensures OnDisk(cfg.codec, DoRename(cfg, s).state.files, x)
         == OnDisk(cfg.codec, s.files, x) + Count(s.lock.slices[0], x)
  {
    hide ChunkName, IsChunkFile, TmpName, SeqNumber;
    var n, slice := s.lock.stage.n, s.lock.slices[0];
    var data := cfg.codec.encode(slice);
    TmpNameIgnored(n);
    ChunkNameRecognised(n);
    var mid := s.files - {TmpName(n)};
    assert s.files[TmpName(n)] == data;
    OnDiskOther(cfg.codec, s.files, TmpName(n), [], x);
    OnDiskPut(cfg.codec, mid, ChunkName(n), data, x);
    assert EntriesAt(cfg.codec, mid, ChunkName(n)) == [];
    assert EntriesAt(cfg.codec, mid[ChunkName(n) := data], ChunkName(n)) == slice;
  }

  lemma IngestConserves(cfg: Config, s: State, x: LogEntry, e: LogEntry)
    requires cfg.Valid() && CanIngest(s)
    ensures Conserves(cfg, s, DoIngest(s, e), x)
  {
    hide ChunkName, IsChunkFile, TmpName, SeqNumber, OnDisk, TotalBytes, ChunkUntouched;
  }

  lemma PushConserves(cfg: Config, s: State, x: LogEntry)
    requires cfg.Valid() && LockInv(cfg, s) && CanPush(s)
    ensures Conserves(cfg, s, DoPush(cfg, s), x)
  {
    hide ChunkName, IsChunkFile, TmpName, SeqNumber, OnDisk, TotalBytes, ChunkUntouched;
    if |s.memory| >= cfg.buffer.memoryMax {
      ChunksFlatten(s.memory, cfg.buffer.chunkMax);
    } else {
      CountConcat(s.memory, [s.lock.pushes[0]], x);
      CountSplit(s.lock.pushes, 1, x);
      assert s.lock.pushes[..1] == [s.lock.pushes[0]];
    }
  }

  lemma CheckSizeConserves(cfg: Config, s: State, x: LogEntry)
    requires cfg.Valid() && CanCheckSize(s)
    ensures Conserves(cfg, s, DoCheckSize(cfg, s), x)
  {
    hide ChunkName, IsChunkFile, TmpName, SeqNumber, OnDisk, TotalBytes, ChunkUntouched;
  }

  lemma ListOldestConserves(cfg: Config, s: State, x: LogEntry)
    requires cfg.Valid() && CanListOldest(s)
    ensures Conserves(cfg, s, DoListOldest(s), x)
  {
    hide ChunkName, IsChunkFile, TmpName, SeqNumber, OnDisk, TotalBytes, ChunkUntouched;
  }

  lemma DropOldestConserves(cfg: Config, s: State, x: LogEntry)
    requires cfg.Valid() && LockInv(cfg, s) && PubInv(cfg, s) && CanDropOldest(s)
    ensures Conserves(cfg, s, DoDropOldest(cfg, s), x)
  {
    hide ChunkName, IsChunkFile, TmpName, SeqNumber, OnDisk, TotalBytes, ChunkUntouched;
    if s.lock.stage.path in s.files {
      OnDiskRemove(cfg.codec, s.files, s.lock.stage.path, x);
    } else {
      MissConserves(cfg, s, x);
    }
  }

  lemma MissState(cfg: Config, s: State, x: LogEntry)
    requires Misses(s)
    ensures var Outcome(t, bill) := DoDropOldest(cfg, s);
      && t == s.(lock := t.lock) && t.lock.Held? && t.lock.owner == s.lock.owner && t.lock.slices == []
      && t.lock.pushes == Suffix(s.lock.pushes, 1)
      && bill == NOTHING.(flushLost := Flatten(s.lock.slices) + Prefix(s.lock.pushes, 1))
  {
  }

  lemma OnlyFlushLost(lost: seq<LogEntry>, x: LogEntry)
    ensures Left(NOTHING.(flushLost := lost), x) == Count(lost, x)
  {
  }

  lemma FirstPush(pushes: seq<LogEntry>, x: LogEntry)
    ensures Count(pushes, x) == Count(Prefix(pushes, 1), x) + Count(Suffix(pushes, 1), x)
  {
    if pushes != [] {
      CountSplit(pushes, 1, x);
    }
  }

  /** A failed flush bills the slices and the push it had in hand. */
  lemma MissConserves(cfg: Config, s: State, x: LogEntry)
    requires Misses(s)
    ensures Conserves(cfg, s, DoDropOldest(cfg, s), x)
  {
    hide DoDropOldest, OnDisk, Left, Prefix, Suffix;
    MissState(cfg, s, x);
    var Held(_, slices, _, pushes) := s.lock;
    CountConcat(Flatten(slices), Prefix(pushes, 1), x);
    FirstPush(pushes, x);
    OnlyFlushLost(Flatten(slices) + Prefix(pushes, 1), x);
    var t := DoDropOldest(cfg, s).state;
    assert Copies(t) == Copies(s) && Sent(t) == Sent(s) && Count(Slices(t), x) == 0;
    hide Copies, Sent, Drained, Flatten;
  }

  lemma RelistConserves(cfg: Config, s: State, x: LogEntry)
    requires cfg.Valid() && CanRelist(s)
    ensures Conserves(cfg, s, DoRelist(s), x)
  {
    hide ChunkName, IsChunkFile, TmpName, SeqNumber, OnDisk, TotalBytes, ChunkUntouched;
  }

  lemma PickNumberConserves(cfg: Config, s: State, x: LogEntry)
    requires cfg.Valid() && CanPickNumber(s)
    ensures Conserves(cfg, s, DoPickNumber(s), x)
  {
    hide ChunkName, IsChunkFile, TmpName, SeqNumber, OnDisk, TotalBytes, ChunkUntouched;
  }

  lemma WriteTmpConserves(cfg: Config, s: State, x: LogEntry, k: nat)
    requires cfg.Valid() && CanWriteTmp(cfg, s, k)
    ensures Conserves(cfg, s, DoWriteTmp(cfg, s, k), x)
  {
    hide ChunkName, IsChunkFile, TmpName, SeqNumber, OnDisk, TotalBytes, ChunkUntouched;
    var t := DoWriteTmp(cfg, s, k).state;
    TmpNameIgnored(t.lock.stage.n);
    OnDiskOther(cfg.codec, s.files, TmpName(t.lock.stage.n), t.files[TmpName(t.lock.stage.n)], x);
  }

  lemma FirstSlice(slices: seq<seq<LogEntry>>, x: LogEntry)
    requires slices != []
    ensures Count(Flatten(slices), x) == Count(slices[0], x) + Count(Flatten(slices[1..]), x)
  {
    CountConcat(slices[0], Flatten(slices[1..]), x);
  }

  lemma RenameConserves(cfg: Config, s: State, x: LogEntry)
    requires cfg.Valid() && LockInv(cfg, s) && CanRename(cfg, s)
    ensures Conserves(cfg, s, DoRename(cfg, s), x)
  {
    hide ChunkName, IsChunkFile, TmpName, SeqNumber, OnDisk, TotalBytes, ChunkUntouched;
    RenameAddsSlice(cfg, s, x);
    FirstSlice(s.lock.slices, x);
    hide Flatten, Count, LockInv;
  }

  /** A step that bills nothing and keeps what is held, sent and copied. */
  lemma ConservesUnbilled(cfg: Config, s: State, t: State, x: LogEntry)
    requires Holds(cfg, s, x) == Holds(cfg, t, x)
    requires Count(Copies(s), x) == Count(Copies(t), x) && Count(Sent(s), x) == Count(Sent(t), x)
    ensures Conserves(cfg, s, Outcome(t, NOTHING), x)
  {
    hide Holds, Copies, Sent;
  }

  /** What the end of a tail requeue does to each part of the account. */
  lemma TailParts(cfg: Config, s: State, x: LogEntry)
    requires LockInv(cfg, s) && CanRelease(s) && s.lock.owner.Tail?
    ensures var Tail(path, entries, published) := s.lock.owner; var Outcome(t, bill) := DoRelease(cfg, s);
      && Holds(cfg, s, x) == Count(s.memory, x) + OnDisk(cfg.codec, s.files, x)
      && Holds(cfg, t, x) == Count(s.memory, x) + OnDisk(cfg.codec, s.files - {path}, x)
      && Copies(s) == entries[published..] && Copies(t) == [] && Sent(s) == entries[..published] && Sent(t) == []
      && bill == NOTHING.(settled := entries[..published], surplus := if s.stale then entries else [],
                          clobbered := if s.stale then EntriesAt(cfg.codec, s.files, path) else [])
  {
    hide OnDisk, EntriesAt;
  }

  lemma SettledAndClobbered(a: seq<LogEntry>, b: seq<LogEntry>, c: seq<LogEntry>, x: LogEntry)
    ensures Left(NOTHING.(settled := a, surplus := b, clobbered := c), x) == Count(a, x) + Count(c, x)
  {
  }

  lemma TailConserves(cfg: Config, s: State, x: LogEntry)
    requires LockInv(cfg, s) && CanRelease(s) && s.lock.owner.Tail?
    requires PublishedPath(s).Some? && !s.stale ==> ChunkUntouched(cfg, s, s.lock.owner.path)
    ensures Conserves(cfg, s, DoRelease(cfg, s), x)
  {
    var Tail(path, entries, published) := s.lock.owner;
    assert published <= |entries|;
    assert !s.stale ==> EntriesAt(cfg.codec, s.files, path) == entries;
    hide LockInv, OnDisk, EntriesAt, ChunkUntouched, DoRelease, Holds, Copies, Sent, Left, PublishedPath;
    TailParts(cfg, s, x);
    OnDiskRemove(cfg.codec, s.files, path, x);
    CountSplit(entries, published, x);
    var bill := DoRelease(cfg, s).bill;
    SettledAndClobbered(bill.settled, bill.surplus, bill.clobbered, x);
    ConservesFrom(cfg, s, DoRelease(cfg, s), x);
  }

  lemma ReleaseConserves(cfg: Config, s: State, x: LogEntry)
    requires cfg.Valid() && LockInv(cfg, s) && PubInv(cfg, s) && CanRelease(s)
    ensures Conserves(cfg, s, DoRelease(cfg, s), x)
  {
    hide ChunkName, IsChunkFile, TmpName, SeqNumber, OnDisk, TotalBytes, ChunkUntouched;
    if s.lock.owner.Tail? {
      TailConserves(cfg, s, x);
    } else {
      PlainReleaseConserves(cfg, s, x);
    }
    hide Conserves, DoRelease;
  }

  lemma PlainReleaseConserves(cfg: Config, s: State, x: LogEntry)
    requires LockInv(cfg, s) && CanRelease(s) && !s.lock.owner.Tail?
    ensures Conserves(cfg, s, DoRelease(cfg, s), x)
  {
    PlainReleaseParts(cfg, s, x);
    hide Holds, Copies, Sent, LockInv, DoRelease, Conserves;
    ConservesUnbilled(cfg, s, DoRelease(cfg, s).state, x);
  }

  lemma PlainReleaseParts(cfg: Config, s: State, x: LogEntry)
    requires LockInv(cfg, s) && CanRelease(s) && !s.lock.owner.Tail?
    ensures var Outcome(t, bill) := DoRelease(cfg, s);
      && Holds(cfg, s, x) == Holds(cfg, t, x) && Copies(s) == Copies(t) && Sent(s) == Sent(t) && bill == NOTHING
  {
    hide ChunkName, IsChunkFile, TmpName, OnDisk, DeleteChunk;
  }

  lemma DrainConserves(cfg: Config, s: State, x: LogEntry)
    requires cfg.Valid() && CanDrain(s)
    ensures Conserves(cfg, s, DoDrain(s), x)
  {
    hide ChunkName, IsChunkFile, TmpName, SeqNumber, OnDisk, TotalBytes, ChunkUntouched;
  }

  lemma PickChunkConserves(cfg: Config, s: State, x: LogEntry)
    requires cfg.Valid() && CanPickChunk(s)
    ensures Conserves(cfg, s, DoPickChunk(s), x)
  {
    hide ChunkName, IsChunkFile, TmpName, SeqNumber, OnDisk, TotalBytes, ChunkUntouched;
  }

  lemma ReadConserves(cfg: Config, s: State, x: LogEntry)
    requires cfg.Valid() && CanRead(s)
    ensures Conserves(cfg, s, DoRead(cfg, s), x)
  {
    hide ChunkName, IsChunkFile, TmpName, SeqNumber, OnDisk, TotalBytes, ChunkUntouched;
  }

  /** A hand-off moves one entry from the unsent to the sent part of the batch. */
  lemma HandOffParts(cfg: Config, s: State, x: LogEntry)
    requires PubInv(cfg, s) && CanHandOff(s)
    ensures var Outcome(t, bill) := DoHandOff(s);
      && Holds(cfg, s, x) == Holds(cfg, t, x) && Copies(s) == Copies(t)
      && Sent(t) == Sent(s) + bill.handed && bill == NOTHING.(handed := bill.handed)
  {
    hide OnDisk, ChunkUntouched, IsChunkFile, Count;
    var all := if s.pub.Memory? then s.pub.vec else s.pub.entries;
    var p := if s.pub.Memory? then s.pub.sent else s.pub.published + s.pub.sent;
    assert all[..p + 1] == all[..p] + [all[p]];
  }

  lemma JustHanded(handed: seq<LogEntry>, x: LogEntry)
    ensures Left(NOTHING.(handed := handed), x) == 0
  {
  }

  lemma HandOffConserves(cfg: Config, s: State, x: LogEntry)
    requires cfg.Valid() && LockInv(cfg, s) && PubInv(cfg, s) && CanHandOff(s)
    ensures Conserves(cfg, s, DoHandOff(s), x)
  {
    HandOffParts(cfg, s, x);
    hide Holds, Copies, Sent, LockInv, PubInv, DoHandOff, Left, CanHandOff;
    var o := DoHandOff(s);
    CountConcat(Sent(s), o.bill.handed, x);
    JustHanded(o.bill.handed, x);
    ConservesFrom(cfg, s, o, x);
  }

  lemma BatchDoneConserves(cfg: Config, s: State, x: LogEntry)
    requires cfg.Valid() && LockInv(cfg, s) && PubInv(cfg, s) && CanBatchDone(s)
    ensures Conserves(cfg, s, DoBatchDone(s), x)
  {
    hide ChunkName, IsChunkFile, TmpName, SeqNumber, OnDisk, TotalBytes, ChunkUntouched;
    if s.pub.Memory? {
      CountSplit(s.pub.vec, s.pub.sent, x);
    } else {
      assert s.pub.entries[..|s.pub.entries|] == s.pub.entries;
    }
  }

  lemma FailConserves(cfg: Config, s: State, x: LogEntry)
    requires cfg.Valid() && CanHandOff(s)
    ensures Conserves(cfg, s, DoFail(s), x)
  {
    hide Conserves, DoFail;
    if s.pub.Memory? {
      MemoryFailConserves(cfg, s, x);
    } else {
      DiskFailConserves(cfg, s, x);
    }
  }

  lemma MemoryFailConserves(cfg: Config, s: State, x: LogEntry)
    requires CanHandOff(s) && s.pub.Memory?
    ensures Conserves(cfg, s, DoFail(s), x)
  {
    hide OnDisk, Flatten;
    CountSplit(s.pub.vec, BatchOf(s.pub.vec), x);
  }

  lemma DiskFailConserves(cfg: Config, s: State, x: LogEntry)
    requires CanHandOff(s) && s.pub.Disk?
    ensures Conserves(cfg, s, DoFail(s), x)
  {
    hide OnDisk, Flatten;
    var Disk(_, entries, p, sent) := s.pub;
    assert entries[..p + sent] == entries[..p] + entries[p..][..sent];
    CountConcat(entries[..p], entries[p..][..sent], x);
    var t := DoFail(s).state;
    assert Holds(cfg, t, x) == Holds(cfg, s, x) && Copies(t) == Copies(s);
    hide Holds, Copies;
  }

  lemma LockRequeueConserves(cfg: Config, s: State, x: LogEntry)
    requires cfg.Valid() && CanLockRequeue(s)
    ensures Conserves(cfg, s, DoLockRequeue(s), x)
  {
    hide ChunkName, IsChunkFile, TmpName, SeqNumber, OnDisk, TotalBytes, ChunkUntouched;
  }

  lemma LockTailConserves(cfg: Config, s: State, x: LogEntry)
    requires cfg.Valid() && LockInv(cfg, s) && PubInv(cfg, s) && CanLockTail(s)
    ensures Conserves(cfg, s, DoLockTail(s), x)
  {
    hide ChunkName, IsChunkFile, TmpName, SeqNumber, OnDisk, TotalBytes, ChunkUntouched;
  }

  lemma DeleteConserves(cfg: Config, s: State, x: LogEntry)
    requires cfg.Valid() && LockInv(cfg, s) && PubInv(cfg, s) && CanDelete(s)
    ensures Conserves(cfg, s, DoDelete(cfg, s), x)
  {
    hide ChunkName, IsChunkFile, TmpName, SeqNumber, OnDisk, TotalBytes;
    OnDiskRemove(cfg.codec, s.files, s.pub.path, x);
  }

  lemma CancelConserves(cfg: Config, s: State, x: LogEntry)
    requires cfg.Valid() && PubInv(cfg, s) && CanCancel(s)
    ensures Conserves(cfg, s, DoCancel(s), x)
  {
    hide ChunkName, IsChunkFile, TmpName, SeqNumber, OnDisk, TotalBytes, ChunkUntouched;
    DrainedSplits(s, x);
    hide Dropped, PubInv;
  }

  lemma FinalFlushConserves(cfg: Config, s: State, x: LogEntry)
    requires cfg.Valid() && LockInv(cfg, s) && CanFinalFlush(s)
    ensures Conserves(cfg, s, DoFinalFlush(cfg, s), x)
  {
    hide ChunkName, IsChunkFile, TmpName, SeqNumber, OnDisk, TotalBytes, ChunkUntouched;
    ChunksFlatten(s.memory, cfg.buffer.chunkMax);
  }

  lemma ConcatFour(a: seq<LogEntry>, b: seq<LogEntry>, c: seq<LogEntry>, d: seq<LogEntry>, x: LogEntry)
    ensures Count(a + (b + (c + d)), x) == Count(a, x) + Count(b, x) + Count(c, x) + Count(d, x)
  {
    CountConcat(c, d, x);
    CountConcat(b, c + d, x);
    CountConcat(a, b + (c + d), x);
  }

  /** What the publisher drained is split into what was sent and what is dropped. */
  lemma DrainedSplits(s: State, x: LogEntry)
    requires s.pub.Memory? ==> s.pub.sent <= |s.pub.vec|
    ensures Count(Drained(s.pub), x) == Count(if s.pub.Memory? then Sent(s) else [], x) + Count(Dropped(s), x)
  {
    if s.pub.Memory? {
      CountSplit(s.pub.vec, s.pub.sent, x);
    }
  }

  lemma RestartBill(s: State, x: LogEntry)
    ensures var bill := DoRestart(s).bill;
      && Left(bill, x) == Count(bill.settled, x) + Count(bill.lostAtExit, x)
      && Count(bill.settled, x) == Count(if s.pub.Memory? then Sent(s) else [], x)
      && Count(bill.settled, x) + Count(bill.resent, x) == Count(Sent(s), x)
      && Count(bill.accepted, x) == 0 && Count(bill.handed, x) == 0
  {
    hide Sent, Slices, Pushes, Dropped, Copies;
  }

  lemma RestartState(cfg: Config, s: State, x: LogEntry)
    ensures var t := DoRestart(s).state;
      Holds(cfg, t, x) == OnDisk(cfg.codec, s.files, x) && Count(Copies(t), x) == 0 && Count(Sent(t), x) == 0
  {
    hide OnDisk, Sent;
    assert Sent(DoRestart(s).state) == [] by { NothingSent(DoRestart(s).state); }
  }

  lemma NothingSent(s: State)
    requires s.pub.Idle?
    ensures Sent(s) == []
  {
  }

  lemma RestartConserves(cfg: Config, s: State, x: LogEntry)
    requires cfg.Valid() && PubInv(cfg, s)
    ensures Conserves(cfg, s, DoRestart(s), x)
  {
    assert s.pub.Memory? ==> s.pub.sent <= |s.pub.vec|;
    assert DoRestart(s).bill.lostAtExit == s.memory + (Slices(s) + (Pushes(s) + Dropped(s)));
    assert DoRestart(s).bill.surplus == Copies(s);
    hide *;
    DrainedSplits(s, x);
    ConcatFour(s.memory, Slices(s), Pushes(s), Dropped(s), x);
    RestartBill(s, x);
    RestartState(cfg, s, x);
    HoldsParts(cfg, s, x);
    ConservesFrom(cfg, s, DoRestart(s), x);
  }

  lemma HoldsParts(cfg: Config, s: State, x: LogEntry)
    ensures Holds(cfg, s, x) == Count(s.memory, x) + OnDisk(cfg.codec, s.files, x) + Count(Slices(s), x)
                              + Count(Pushes(s), x) + Count(Drained(s.pub), x)
  {
  }

  lemma ConservesFrom(cfg: Config, s: State, o: Outcome, x: LogEntry)
    requires Holds(cfg, s, x) + Count(o.bill.accepted, x) + Count(o.bill.surplus, x) + Count(Copies(o.state), x)
          == Holds(cfg, o.state, x) + Left(o.bill, x) + Count(Copies(s), x)
    requires Count(o.bill.handed, x) + Count(Sent(s), x)
          == Count(o.bill.settled, x) + Count(o.bill.resent, x) + Count(Sent(o.state), x)
    ensures Conserves(cfg, s, o, x)
  {
  }

  lemma BookkeepConserves(cfg: Config, s: State, x: LogEntry, name: string, data: seq<Byte>)
    requires cfg.Valid() && name in BOOKKEEPING
    ensures Conserves(cfg, s, DoBookkeep(s, name, data), x)
  {
    hide ChunkName, IsChunkFile, TmpName, SeqNumber, OnDisk, TotalBytes, ChunkUntouched;
    BookkeepingIsNotSpool(name);
    OnDiskOther(cfg.codec, s.files, name, data, x);
  }

}
