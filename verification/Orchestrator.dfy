/** The log pipeline as a state machine (src/orchestrator.rs with src/buffer.rs).

    One ingestion task and one publish loop share the buffer under a lock. Every
    event below is one atomic section of that program: the lock holder's pushes
    and single file operations, and the publisher's unlocked reads, hand-offs and
    deletions, so all their interleavings, exits between any two file operations
    and cancellation of the publish future at its await points are runs of the
    machine. File operations succeed, except removing a file that is gone. */
module Orchestrator {
  import opened Prelude
  import opened LogEntries
  import opened SpoolNames
  import opened Spool

  /** PUBLISH_BATCH_SIZE. */
  const BATCH: nat := 200

  /** Files other parts of the daemon keep in the same directory. */
  const BOOKKEEPING: set<string> :=
    {"metrics_seq.cbor", "metrics_seq.cbor.tmp", "crashdump_state.json", "crashdump_state.json.tmp"}

  datatype Config = Config(buffer: BufferConfig, codec: Codec)
  {
    ghost predicate Valid() { buffer.Valid() && codec.Lawful() }
  }

  // ---- state -----------------------------------------------------------------------------

  /** Why the lock is held: one push from a source, requeueing a failed memory
      batch, requeueing the tail of a partly published chunk (and then deleting
      it), or the final flush. */
  datatype Owner =
    | Ingestion
    | Requeue
    | Tail(path: string, entries: seq<LogEntry>, published: nat)
    | FinalFlush

  /** Progress of `write_chunk` on the first pending slice. */
  datatype Stage =
    | Ready                    // no flush in progress
    | SizeCheck                // about to compare the directory size with the limit
    | Listing                  // over the limit: about to list the chunks for the oldest one
    | Evicting(path: string)   // about to remove the chunk that was listed as the oldest
    | Relisting                // about to list again, to see whether any chunk is left
    | Naming                   // about to pick a number
    | Numbered(n: nat)         // about to create the temporary file for chunk n
    | Writing(n: nat, k: nat)  // k bytes of that file are written

  datatype Lock =
    | Free
    | Held(owner: Owner, slices: seq<seq<LogEntry>>, stage: Stage, pushes: seq<LogEntry>)

  datatype Publisher =
    | Idle
    | Looking                                     // memory was empty: about to pick a chunk
    | Memory(vec: seq<LogEntry>, sent: nat)       // drained vector from the current batch on
    | FailedBatch(batch: seq<LogEntry>)           // waiting for the lock to requeue it
    | Requeueing
    | Picked(path: string)
    | Disk(path: string, entries: seq<LogEntry>, published: nat, sent: nat)
    | Deleting(path: string, entries: seq<LogEntry>)
    | FailedTail(path: string, entries: seq<LogEntry>, published: nat)
    | Tailing
    | Corrupt(path: string)
    | Stopping
    | Stopped

  /** `stale`: the chunk being published has been evicted since it was picked or
      read. `origin` maps each chunk the buffer wrote to the slice it was given. */
  datatype State = State(
    files: Files,
    memory: seq<LogEntry>,
    mayHaveChunks: bool,
    lock: Lock,
    pub: Publisher,
    stale: bool,
    origin: map<string, seq<LogEntry>>)

  ghost predicate Initial(s: State)
  {
    && s.memory == [] && s.lock == Free && s.pub == Idle && !s.stale && s.origin == map[]
    && s.mayHaveChunks == (ChunkFiles(s.files) != {})
  }

  /** What happened to entries in a step (or, added up, in a run). `handed` is
      every message given to the client, in order; `settled` the entries the
      daemon then let go of; `resent` hand-offs of entries it kept for another
      attempt. `flushLost` are the entries a flush still had in hand when it failed,
      `clobbered` those of a chunk deleted in another's place. `surplus` lists
      entries of which a second copy stays behind. */
  datatype Ledger = Ledger(
    accepted: seq<LogEntry>,
    handed: seq<LogEntry>,
    settled: seq<LogEntry>,
    resent: seq<LogEntry>,
    evicted: seq<LogEntry>,
    abandoned: seq<LogEntry>,
    cancelled: seq<LogEntry>,
    lostAtExit: seq<LogEntry>,
    flushLost: seq<LogEntry>,
    clobbered: seq<LogEntry>,
    surplus: seq<LogEntry>)

  const NOTHING: Ledger := Ledger([], [], [], [], [], [], [], [], [], [], [])

  function Add(a: Ledger, b: Ledger): Ledger
  {
    Ledger(a.accepted + b.accepted, a.handed + b.handed, a.settled + b.settled, a.resent + b.resent,
           a.evicted + b.evicted, a.abandoned + b.abandoned, a.cancelled + b.cancelled,
           a.lostAtExit + b.lostAtExit, a.flushLost + b.flushLost, a.clobbered + b.clobbered, a.surplus + b.surplus)
  }

  datatype Outcome = Outcome(state: State, bill: Ledger)

  // ---- views of a state --------------------------------------------------------------------

  /** The entries a chunk file holds; none if it is missing or undecodable. */
  ghost function EntriesAt(codec: Codec, files: Files, name: string): seq<LogEntry>
  {
    if name in files && IsChunkFile(name) && codec.decode(files[name]).Some?
    then codec.decode(files[name]).value else []
  }

  function BatchOf(rest: seq<LogEntry>): (b: nat)
    ensures b <= |rest| && b == if |rest| < 200 then |rest| else 200
  {
    if |rest| <= BATCH then |rest| else BATCH
  }

  function Reverse(es: seq<LogEntry>): (r: seq<LogEntry>)
    ensures |r| == |es| && forall x :: Count(r, x) == Count(es, x)
    ensures forall i :: 0 <= i < |es| ==> r[i] == es[|es| - 1 - i]
  {
    if es == [] then []
    else
      var r := Reverse(es[1..]);
      assert forall x :: Count(r + [es[0]], x) == Count(es, x) by {
        forall x ensures Count(r + [es[0]], x) == Count(es, x) {
          CountConcat(r, [es[0]], x);
        }
      }
      r + [es[0]]
  }

  /** Memory batch or disk batch in progress: what is left of the vector or chunk. */
  function Rest(pub: Publisher): seq<LogEntry>
  {
    match pub
    case Memory(vec, _) => vec
    case Disk(_, entries, published, _) => if published <= |entries| then entries[published..] else []
    case _ => []
  }

  predicate Sending(pub: Publisher)
  {
    (pub.Memory? || (pub.Disk? && pub.published <= |pub.entries|)) && pub.sent <= BatchOf(Rest(pub))
  }

  /** The chunk the publisher is working on. */
  function PublishedPath(s: State): Option<string>
  {
    match s.pub
    case Picked(path) => Some(path)
    case Disk(path, _, _, _) => Some(path)
    case Deleting(path, _) => Some(path)
    case FailedTail(path, _, _) => Some(path)
    case Corrupt(path) => Some(path)
    case Tailing => if s.lock.Held? && s.lock.owner.Tail? then Some(s.lock.owner.path) else None
    case _ => None
  }

  function Prefix(es: seq<LogEntry>, n: nat): seq<LogEntry> { if n <= |es| then es[..n] else es }

  function Suffix(es: seq<LogEntry>, n: nat): seq<LogEntry> { if n <= |es| then es[n..] else [] }

  /** Entries of the batch or chunk in progress that the client already has. */
  function Sent(s: State): seq<LogEntry>
  {
    match s.pub
    case Memory(vec, sent) => Prefix(vec, sent)
    case Disk(_, entries, published, sent) => Prefix(entries, published + sent)
    case Deleting(_, entries) => entries
    case FailedTail(_, entries, published) => Prefix(entries, published)
    case Tailing =>
      if s.lock.Held? && s.lock.owner.Tail? then Prefix(s.lock.owner.entries, s.lock.owner.published) else []
    case _ => []
  }

  // ---- the lock holder -----------------------------------------------------------------------

  /** A push that waited for the lock can still come after the final flush. */
  predicate CanIngest(s: State) { s.lock.Free? }

  function DoIngest(s: State, e: LogEntry): Outcome
    requires CanIngest(s)
  {
    Outcome(s.(lock := Held(Ingestion, [], Ready, [e])), NOTHING.(accepted := [e]))
  }

  predicate CanPush(s: State) { s.lock.Held? && s.lock.stage.Ready? && s.lock.pushes != [] }

  /** One `push`; a full memory first becomes pending slices. */
  function DoPush(cfg: Config, s: State): Outcome
    requires cfg.buffer.Valid() && CanPush(s)
  {
    var Held(owner, slices, stage, pushes) := s.lock;
    if |s.memory| >= cfg.buffer.memoryMax then
      Outcome(s.(memory := [], lock := Held(owner, Chunks(s.memory, cfg.buffer.chunkMax), SizeCheck, pushes)), NOTHING)
    else
      Outcome(s.(memory := s.memory + [pushes[0]], lock := Held(owner, slices, stage, pushes[1..])), NOTHING)
  }

  predicate CanCheckSize(s: State) { s.lock.Held? && s.lock.stage.SizeCheck? }

  ghost function DoCheckSize(cfg: Config, s: State): Outcome
    requires CanCheckSize(s)
  {
    var stage := if TotalBytes(s.files) > cfg.buffer.maxBytes then Listing else Naming;
    Outcome(s.(lock := s.lock.(stage := stage)), NOTHING)
  }

  predicate CanListOldest(s: State) { s.lock.Held? && s.lock.stage.Listing? }

  ghost function DoListOldest(s: State): Outcome
    requires CanListOldest(s)
  {
    var stage := if ChunkFiles(s.files) == {} then Relisting else Evicting(OldestChunk(s.files));
    Outcome(s.(lock := s.lock.(stage := stage)), NOTHING)
  }

  predicate CanDropOldest(s: State) { s.lock.Held? && s.lock.stage.Evicting? }

  /** The chunk to be evicted is the one being published. */
  predicate Hits(s: State)
  {
    CanDropOldest(s) && s.lock.stage.path in s.files && PublishedPath(s) == Some(s.lock.stage.path)
  }

  /** The chunk to be evicted is gone: the publisher deleted it after it was listed. */
  predicate Misses(s: State) { CanDropOldest(s) && s.lock.stage.path !in s.files }

  /** Removing a file that is gone fails, and with it the write, the flush and the
      push that needed it: the slices not yet written and the entry being pushed are
      dropped. Requeueing goes on with the next entry. */
  ghost function DoDropOldest(cfg: Config, s: State): Outcome
    requires CanDropOldest(s)
  {
    var Held(owner, slices, Evicting(path), pushes) := s.lock;
    if path !in s.files then
      Outcome(s.(lock := Held(owner, [], Ready, Suffix(pushes, 1))),
              NOTHING.(flushLost := Flatten(slices) + Prefix(pushes, 1)))
    else
      Outcome(s.(files := s.files - {path}, lock := s.lock.(stage := Relisting), stale := s.stale || Hits(s)),
              NOTHING.(evicted := EntriesAt(cfg.codec, s.files, path)))
  }

  predicate CanRelist(s: State) { s.lock.Held? && s.lock.stage.Relisting? }

  ghost function DoRelist(s: State): Outcome
    requires CanRelist(s)
  {
    var stage := if ChunkFiles(s.files) == {} then Naming else SizeCheck;
    Outcome(s.(lock := s.lock.(stage := stage)), NOTHING)
  }

  /** A number past u64 is excluded. */
  ghost predicate CanPickNumber(s: State)
  {
    s.lock.Held? && s.lock.stage.Naming? && NextNumber(s.files) < U64
  }

  ghost function DoPickNumber(s: State): Outcome
    requires CanPickNumber(s)
  {
    Outcome(s.(lock := s.lock.(stage := Numbered(NextNumber(s.files)))), NOTHING)
  }

  /** The file may be created empty and grow. */
  ghost predicate CanWriteTmp(cfg: Config, s: State, k: nat)
  {
    && s.lock.Held? && s.lock.slices != []
    && k <= |cfg.codec.encode(s.lock.slices[0])|
    && (s.lock.stage.Numbered? || (s.lock.stage.Writing? && s.lock.stage.k <= k))
  }

  ghost function DoWriteTmp(cfg: Config, s: State, k: nat): Outcome
    requires CanWriteTmp(cfg, s, k)
  {
    var data := cfg.codec.encode(s.lock.slices[0])[..k];
    Outcome(s.(files := s.files[TmpName(s.lock.stage.n) := data], lock := s.lock.(stage := Writing(s.lock.stage.n, k))),
            NOTHING)
  }

  ghost predicate CanRename(cfg: Config, s: State)
  {
    && s.lock.Held? && s.lock.slices != [] && s.lock.stage.Writing?
    && s.lock.stage.k == |cfg.codec.encode(s.lock.slices[0])|
    && TmpName(s.lock.stage.n) in s.files
  }

  ghost function DoRename(cfg: Config, s: State): Outcome
    requires CanRename(cfg, s)
  {
    var Held(owner, slices, Writing(n, _), pushes) := s.lock;
    var stage := if |slices| > 1 then SizeCheck else Ready;
    Outcome(s.(files := (s.files - {TmpName(n)})[ChunkName(n) := s.files[TmpName(n)]],
               lock := Held(owner, slices[1..], stage, pushes),
               mayHaveChunks := true,
               origin := s.origin[ChunkName(n) := slices[0]]),
            NOTHING)
  }

  predicate CanRelease(s: State) { s.lock.Held? && s.lock.stage.Ready? && s.lock.pushes == [] }

  ghost function DoRelease(cfg: Config, s: State): Outcome
    requires CanRelease(s)
  {
    match s.lock.owner
    case Ingestion => Outcome(s.(lock := Free), NOTHING)
    case Requeue => Outcome(s.(lock := Free, pub := Idle), NOTHING)
    case Tail(path, entries, published) => DeleteChunk(cfg, s, path, Prefix(entries, published), entries)
    case FinalFlush => Outcome(s.(lock := Free, pub := Stopped), NOTHING)
  }

  /** `delete_chunk` by path after publishing: `sent` was handed off from what the
      chunk held when it was read. If that chunk has been evicted in the meantime,
      the path may by now name another one, which goes instead. */
  ghost function DeleteChunk(cfg: Config, s: State, path: string, sent: seq<LogEntry>, entries: seq<LogEntry>): Outcome
  {
    Outcome(s.(files := s.files - {path}, pub := Idle, lock := if s.pub.Tailing? then Free else s.lock),
            NOTHING.(settled := sent,
                     surplus := if s.stale then entries else [],
                     clobbered := if s.stale then EntriesAt(cfg.codec, s.files, path) else []))
  }

  // ---- the publisher -------------------------------------------------------------------------

  predicate CanDrain(s: State) { s.pub.Idle? && s.lock.Free? }

  function DoDrain(s: State): Outcome
    requires CanDrain(s)
  {
    Outcome(if s.memory == [] then s.(pub := Looking) else s.(pub := Memory(s.memory, 0), memory := []), NOTHING)
  }

  predicate CanPickChunk(s: State) { s.pub.Looking? && s.lock.Free? }

  ghost function DoPickChunk(s: State): Outcome
    requires CanPickChunk(s)
  {
    var next := if s.mayHaveChunks then NewestChunk(s.files) else None;
    Outcome(s.(pub := if next.Some? then Picked(next.value) else Idle, mayHaveChunks := next.Some?, stale := false),
            NOTHING)
  }

  predicate CanRead(s: State) { s.pub.Picked? }

  function DoRead(cfg: Config, s: State): Outcome
    requires CanRead(s)
  {
    var path := s.pub.path;
    var content := if path in s.files then cfg.codec.decode(s.files[path]) else None;
    Outcome(match content
            case None => s.(pub := Corrupt(path))
            case Some(es) => s.(pub := if es == [] then Deleting(path, []) else Disk(path, es, 0, 0), stale := false),
            NOTHING)
  }

  predicate CanHandOff(s: State) { Sending(s.pub) && s.pub.sent < BatchOf(Rest(s.pub)) }

  function DoHandOff(s: State): Outcome
    requires CanHandOff(s)
  {
    Outcome(s.(pub := s.pub.(sent := s.pub.sent + 1)), NOTHING.(handed := [Rest(s.pub)[s.pub.sent]]))
  }

  predicate CanBatchDone(s: State) { Sending(s.pub) && s.pub.sent == BatchOf(Rest(s.pub)) }

  function DoBatchDone(s: State): Outcome
    requires CanBatchDone(s)
  {
    match s.pub
    case Memory(vec, sent) =>
      Outcome(s.(pub := if vec[sent..] == [] then Idle else Memory(vec[sent..], 0)), NOTHING.(settled := vec[..sent]))
    case Disk(path, entries, published, sent) =>
      Outcome(s.(pub := if published + sent == |entries| then Deleting(path, entries)
                        else Disk(path, entries, published + sent, 0)), NOTHING)
  }

  /** A message fails. A memory batch waits to be requeued, and what follows it in
      the drained vector is abandoned; a chunk nothing of which was published is
      left alone, otherwise its tail waits to be requeued. */
  function DoFail(s: State): Outcome
    requires CanHandOff(s)
  {
    match s.pub
    case Memory(vec, sent) =>
      Outcome(s.(pub := FailedBatch(vec[..BatchOf(vec)])),
              NOTHING.(abandoned := vec[BatchOf(vec)..], resent := vec[..sent]))
    case Disk(path, entries, published, sent) =>
      Outcome(s.(pub := if published == 0 then Idle else FailedTail(path, entries, published)),
              NOTHING.(resent := entries[published..][..sent]))
  }

  predicate CanLockRequeue(s: State) { s.pub.FailedBatch? && s.lock.Free? }

  function DoLockRequeue(s: State): Outcome
    requires CanLockRequeue(s)
  {
    Outcome(s.(lock := Held(Requeue, [], Ready, s.pub.batch), pub := Requeueing), NOTHING)
  }

  predicate CanLockTail(s: State) { s.pub.FailedTail? && s.lock.Free? }

  function DoLockTail(s: State): Outcome
    requires CanLockTail(s)
  {
    var FailedTail(path, entries, published) := s.pub;
    Outcome(s.(lock := Held(Tail(path, entries, published), [], Ready, Reverse(Suffix(entries, published))),
               pub := Tailing), NOTHING)
  }

  predicate CanDelete(s: State) { s.pub.Deleting? || s.pub.Corrupt? }

  ghost function DoDelete(cfg: Config, s: State): Outcome
    requires CanDelete(s)
  {
    var entries := if s.pub.Deleting? then s.pub.entries else [];
    DeleteChunk(cfg, s, s.pub.path, entries, entries)
  }

  // ---- shutdown, exit, restart -------------------------------------------------------------------

  /** The await points of `publish_tick` and of its caller. */
  predicate CanCancel(s: State)
  {
    s.pub.Idle? || s.pub.Looking? || s.pub.Memory? || s.pub.FailedBatch? || s.pub.Disk? || s.pub.FailedTail?
  }

  /** Entries that die with the `publish_tick` future. */
  function Dropped(s: State): seq<LogEntry>
  {
    match s.pub
    case Memory(vec, sent) => Suffix(vec, sent)
    case FailedBatch(batch) => batch
    case _ => []
  }

  function DoCancel(s: State): Outcome
    requires CanCancel(s)
  {
    Outcome(s.(pub := Stopping),
            NOTHING.(cancelled := Dropped(s),
                     settled := if s.pub.Memory? then Sent(s) else [],
                     resent := if s.pub.Memory? then [] else Sent(s)))
  }

  predicate CanFinalFlush(s: State) { s.pub.Stopping? && s.lock.Free? }

  function DoFinalFlush(cfg: Config, s: State): Outcome
    requires cfg.buffer.Valid() && CanFinalFlush(s)
  {
    var slices := Chunks(s.memory, cfg.buffer.chunkMax);
    Outcome(s.(memory := [], lock := Held(Owner.FinalFlush, slices, if slices == [] then Ready else SizeCheck, [])), NOTHING)
  }

  /** While a tail is being requeued, its entries exist twice. */
  function Copies(s: State): seq<LogEntry>
  {
    if s.lock.Held? && s.lock.owner.Tail? then Suffix(s.lock.owner.entries, s.lock.owner.published) else []
  }

  /** Entries the lock holder has in hand: slices to write and entries to push. */
  function Slices(s: State): seq<LogEntry> { if s.lock.Held? then Flatten(s.lock.slices) else [] }

  function Pushes(s: State): seq<LogEntry> { if s.lock.Held? then s.lock.pushes else [] }

  /** The process ends, at any point, and starts again on the same directory. */
  ghost function DoRestart(s: State): Outcome
  {
    Outcome(s.(memory := [], lock := Free, pub := Idle, stale := false,
               mayHaveChunks := ChunkFiles(s.files) != {}),
            NOTHING.(lostAtExit := s.memory + (Slices(s) + (Pushes(s) + Dropped(s))),
                     settled := if s.pub.Memory? then Sent(s) else [],
                     resent := if s.pub.Memory? then [] else Sent(s),
                     surplus := Copies(s)))
  }

  /** Sequence numbers and crash-dump state are saved in the same directory. */
  function DoBookkeep(s: State, name: string, data: seq<Byte>): Outcome
  {
    Outcome(s.(files := s.files[name := data]), NOTHING)
  }

  // ---- runs ------------------------------------------------------------------------------

  datatype Event =
    | Ingest(e: LogEntry) | Push | CheckSize | ListOldest | DropOldest | Relist | PickNumber | WriteTmp(k: nat) | Rename | Release
    | Drain | PickChunk | Read | HandOff | BatchDone | Fail | LockRequeue | LockTail | Delete
    | Cancel | FinalFlush | Restart | Bookkeep(name: string, data: seq<Byte>)

  ghost predicate Enabled(cfg: Config, s: State, ev: Event)
  {
    match ev
    case Ingest(_) => CanIngest(s)
    case Push => CanPush(s)
    case CheckSize => CanCheckSize(s)
    case ListOldest => CanListOldest(s)
    case DropOldest => CanDropOldest(s)
    case Relist => CanRelist(s)
    case PickNumber => CanPickNumber(s)
    case WriteTmp(k) => CanWriteTmp(cfg, s, k)
    case Rename => CanRename(cfg, s)
    case Release => CanRelease(s)
    case Drain => CanDrain(s)
    case PickChunk => CanPickChunk(s)
    case Read => CanRead(s)
    case HandOff => CanHandOff(s)
    case BatchDone => CanBatchDone(s)
    case Fail => CanHandOff(s)
    case LockRequeue => CanLockRequeue(s)
    case LockTail => CanLockTail(s)
    case Delete => CanDelete(s)
    case Cancel => CanCancel(s)
    case FinalFlush => CanFinalFlush(s)
    case Restart => true
    case Bookkeep(name, _) => name in BOOKKEEPING
  }

  ghost function Step(cfg: Config, s: State, ev: Event): Outcome
    requires cfg.Valid() && Enabled(cfg, s, ev)
  {
    match ev
    case Ingest(e) => DoIngest(s, e)
    case Push => DoPush(cfg, s)
    case CheckSize => DoCheckSize(cfg, s)
    case ListOldest => DoListOldest(s)
    case DropOldest => DoDropOldest(cfg, s)
    case Relist => DoRelist(s)
    case PickNumber => DoPickNumber(s)
    case WriteTmp(k) => DoWriteTmp(cfg, s, k)
    case Rename => DoRename(cfg, s)
    case Release => DoRelease(cfg, s)
    case Drain => DoDrain(s)
    case PickChunk => DoPickChunk(s)
    case Read => DoRead(cfg, s)
    case HandOff => DoHandOff(s)
    case BatchDone => DoBatchDone(s)
    case Fail => DoFail(s)
    case LockRequeue => DoLockRequeue(s)
    case LockTail => DoLockTail(s)
    case Delete => DoDelete(cfg, s)
    case Cancel => DoCancel(s)
    case FinalFlush => DoFinalFlush(cfg, s)
    case Restart => DoRestart(s)
    case Bookkeep(name, data) => DoBookkeep(s, name, data)
  }

  ghost predicate IsRun(cfg: Config, s: State, events: seq<Event>)
    requires cfg.Valid()
    decreases |events|
  {
    events == [] || (Enabled(cfg, s, events[0]) && IsRun(cfg, Step(cfg, s, events[0]).state, events[1..]))
  }

  /** Where a run ends, and everything that happened to entries on the way. */
  ghost function Run(cfg: Config, s: State, events: seq<Event>): Outcome
    requires cfg.Valid() && IsRun(cfg, s, events)
    decreases |events|
  {
    if events == [] then Outcome(s, NOTHING)
    else
      var first := Step(cfg, s, events[0]);
      var rest := Run(cfg, first.state, events[1..]);
      Outcome(rest.state, Add(first.bill, rest.bill))
  }
}
