/** The two-tier log buffer and its spool directory (src/buffer.rs).
    The directory is a map from file name to bytes; a missing directory is the
    empty map. Specification functions on that map come first, then the buffer
    class, whose methods are proved to compute them. */
module Spool {
  import opened Prelude
  import opened Decimal
  import opened LogEntries
  import opened SpoolNames

  type Files = map<string, seq<Byte>>

  datatype BufferConfig = BufferConfig(memoryMax: nat, chunkMax: nat, maxBytes: nat)
  {
    predicate Valid() { memoryMax > 0 && chunkMax > 0 && maxBytes > 0 }
  }

  // ---- the directory -----------------------------------------------------------

  ghost function ChunkFiles(files: Files): set<string>
  {
    set n | n in files && IsChunkFile(n)
  }

  /** Sum of the sizes of all files, chunks or not. */
  ghost function TotalBytes(files: Files): nat
  {
    if files == map[] then 0
    else
      var n :| n in files;
      |files[n]| + TotalBytes(files - {n})
  }

  lemma {:induction false} TotalBytesSplit(files: Files, n: string)
    requires n in files
    ensures TotalBytes(files) == |files[n]| + TotalBytes(files - {n})
    decreases |files|
  {
    var m :| m in files && TotalBytes(files) == |files[m]| + TotalBytes(files - {m});
    if m != n {
      TotalBytesSplit(files - {m}, n);
      TotalBytesSplit(files - {n}, m);
      assert files - {m} - {n} == files - {n} - {m};
    }
  }

  ghost predicate IsNewest(names: set<string>, n: string)
  {
    n in names && forall m :: m in names && m != n ==> LexLt(m, n)
  }

  ghost predicate IsOldest(names: set<string>, n: string)
  {
    n in names && forall m :: m in names && m != n ==> LexLt(n, m)
  }

  lemma {:induction false} ExtremesExist(names: set<string>)
    requires names != {}
    ensures exists n :: IsNewest(names, n)
    ensures exists n :: IsOldest(names, n)
  {
    var x :| x in names;
    var rest := names - {x};
    if rest == {} {
      assert names == {x};
      assert IsNewest(names, x) && IsOldest(names, x);
    } else {
      ExtremesExist(rest);
      var hi :| IsNewest(rest, hi);
      var lo :| IsOldest(rest, lo);
      forall m | m in rest
        ensures LexLt(hi, x) ==> LexLt(m, x)
        ensures LexLt(x, lo) ==> LexLt(x, m)
      {
        if LexLt(hi, x) && m != hi { LexTransitive(m, hi, x); }
        if LexLt(x, lo) && m != lo { LexTransitive(x, lo, m); }
      }
      LexTotal(x, hi);
      LexTotal(x, lo);
      assert IsNewest(names, if LexLt(hi, x) then x else hi);
      assert IsOldest(names, if LexLt(x, lo) then x else lo);
    }
  }

  lemma NewestUnique(names: set<string>, m: string, n: string)
    requires IsNewest(names, m) && IsNewest(names, n)
    ensures m == n
  {
    LexTotal(m, n);
  }

  lemma OldestUnique(names: set<string>, m: string, n: string)
    requires IsOldest(names, m) && IsOldest(names, n)
    ensures m == n
  {
    LexTotal(m, n);
  }

  ghost function NewestChunk(files: Files): (r: Option<string>)
    ensures r.None? <==> ChunkFiles(files) == {}
    ensures r.Some? ==> IsNewest(ChunkFiles(files), r.value)
  {
    if ChunkFiles(files) == {} then None
    else
      ExtremesExist(ChunkFiles(files));
      var n :| IsNewest(ChunkFiles(files), n);
      Some(n)
  }

  ghost function OldestChunk(files: Files): (n: string)
    requires ChunkFiles(files) != {}
    ensures IsOldest(ChunkFiles(files), n)
  {
    ExtremesExist(ChunkFiles(files));
    var n :| IsOldest(ChunkFiles(files), n);
    n
  }

  ghost predicate IsMaxSeq(names: set<string>, max: nat)
  {
    && (forall n :: n in names && SeqNumber(n).Some? ==> SeqNumber(n).value <= max)
    && (max == 0 || exists n :: n in names && SeqNumber(n) == Some(max))
  }

  lemma {:induction false} MaxSeqExists(names: set<string>)
    ensures exists max: nat :: IsMaxSeq(names, max)
  {
    if names == {} {
      assert IsMaxSeq(names, 0);
    } else {
      var x :| x in names;
      MaxSeqExists(names - {x});
      var max: nat :| IsMaxSeq(names - {x}, max);
      var v := if SeqNumber(x).Some? && SeqNumber(x).value > max then SeqNumber(x).value else max;
      assert IsMaxSeq(names, v);
    }
  }

  /** The number `next_chunk_path` picks: one more than the largest on disk. */
  ghost function NextNumber(files: Files): (n: nat)
    ensures n > 0 && IsMaxSeq(files.Keys, n - 1)
  {
    MaxSeqExists(files.Keys);
    var max: nat :| IsMaxSeq(files.Keys, max);
    max + 1
  }

  lemma NextNumberUnique(files: Files, max: nat)
    requires IsMaxSeq(files.Keys, max)
    ensures NextNumber(files) == max + 1
  {
  }

  /** The next name never collides with a file on disk. */
  lemma NextNameFresh(files: Files)
    requires NextNumber(files) < U64
    ensures ChunkName(NextNumber(files)) !in files
  {
    ChunkNameRecognised(NextNumber(files));
  }

  /** Oldest chunks removed until the total is within the limit or none is left. */
  ghost function Evicted(files: Files, limit: nat): Files
    decreases |files|
  {
    if TotalBytes(files) <= limit || ChunkFiles(files) == {} then files
    else Evicted(files - {OldestChunk(files)}, limit)
  }

  /** Eviction, then a temporary file renamed to the next chunk name. */
  ghost function Written(files: Files, limit: nat, data: seq<Byte>): Files
  {
    var kept := Evicted(files, limit);
    var n := NextNumber(kept);
    (kept - {TmpName(n)})[ChunkName(n) := data]
  }

  ghost function WrittenAll(files: Files, limit: nat, codec: Codec, slices: seq<seq<LogEntry>>): Files
    decreases |slices|
  {
    if slices == [] then files
    else WrittenAll(Written(files, limit, codec.encode(slices[0])), limit, codec, slices[1..])
  }

  lemma {:induction false} WrittenAllStep(files: Files, limit: nat, codec: Codec, slices: seq<seq<LogEntry>>, i: nat)
    requires i < |slices|
    ensures WrittenAll(files, limit, codec, slices[..i + 1])
         == Written(WrittenAll(files, limit, codec, slices[..i]), limit, codec.encode(slices[i]))
    decreases i
  {
    if i == 0 {
      assert slices[..1][1..] == [];
    } else {
      assert slices[..i + 1][1..] == slices[1..][..i] && slices[..i][1..] == slices[1..][..i - 1];
      WrittenAllStep(Written(files, limit, codec.encode(slices[0])), limit, codec, slices[1..], i - 1);
    }
  }

  lemma WrittenHasChunk(files: Files, limit: nat, data: seq<Byte>)
    ensures ChunkFiles(Written(files, limit, data)) != {}
  {
    hide IsChunkFile, ChunkName;
    var n := NextNumber(Evicted(files, limit));
    ChunkNameRecognised(n);
    assert ChunkName(n) in ChunkFiles(Written(files, limit, data));
  }

  // ---- sorting directory listings ------------------------------------------------

  predicate Before(a: string, b: string, newestFirst: bool)
  {
    if newestFirst then LexLt(b, a) else LexLt(a, b)
  }

  ghost predicate Sorted(paths: seq<string>, newestFirst: bool)
  {
    forall i, j :: 0 <= i < j < |paths| ==> Before(paths[i], paths[j], newestFirst)
  }

  function Insert(x: string, paths: seq<string>, newestFirst: bool): (r: seq<string>)
    requires Sorted(paths, newestFirst) && x !in paths
    ensures Sorted(r, newestFirst)
    ensures forall y :: y in r <==> y == x || y in paths
  {
    if paths == [] then [x]
    else if Before(x, paths[0], newestFirst) then
      BeforeAll(x, paths, newestFirst);
      [x] + paths
    else
      LexTotal(x, paths[0]);
      var r := Insert(x, paths[1..], newestFirst);
      assert forall i :: 0 <= i < |r| ==> r[i] == x || r[i] in paths[1..];
      [paths[0]] + r
  }

  lemma BeforeAll(x: string, paths: seq<string>, newestFirst: bool)
    requires paths != [] && Sorted(paths, newestFirst) && Before(x, paths[0], newestFirst)
    ensures forall i :: 0 <= i < |paths| ==> Before(x, paths[i], newestFirst)
  {
    forall i | 0 < i < |paths| ensures Before(x, paths[i], newestFirst) {
      if newestFirst {
        LexTransitive(paths[i], paths[0], x);
      } else {
        LexTransitive(x, paths[0], paths[i]);
      }
    }
  }

  // ---- the directory as an object ------------------------------------------------

  class SpoolDir {
    var files: Files

    constructor (files: Files)
      ensures this.files == files
    {
      this.files := files;
    }

    /** The chunk files, sorted. */
    method ChunkPaths(newestFirst: bool) returns (paths: seq<string>)
      ensures Sorted(paths, newestFirst)
      ensures forall n :: n in paths <==> n in ChunkFiles(files)
      ensures paths == [] <==> ChunkFiles(files) == {}
      ensures paths != [] && newestFirst ==> NewestChunk(files) == Some(paths[0])
      ensures paths != [] && !newestFirst ==> OldestChunk(files) == paths[0]
    {
      paths := [];
      var rest := files.Keys;
      while rest != {}
        invariant rest <= files.Keys
        invariant Sorted(paths, newestFirst)
        invariant forall n :: n in paths <==> n in ChunkFiles(files) && n !in rest
        decreases rest
      {
        var n :| n in rest;
        if IsChunkFile(n) {
          paths := Insert(n, paths, newestFirst);
        }
        rest := rest - {n};
      }
      if paths != [] {
        assert paths[0] in ChunkFiles(files);
        if newestFirst {
          assert IsNewest(ChunkFiles(files), paths[0]);
          NewestUnique(ChunkFiles(files), paths[0], NewestChunk(files).value);
        } else {
          assert IsOldest(ChunkFiles(files), paths[0]);
          OldestUnique(ChunkFiles(files), paths[0], OldestChunk(files));
        }
      }
      assert forall n :: n in ChunkFiles(files) ==> n in paths;
    }

    method TotalSize() returns (total: nat)
      ensures total == TotalBytes(files)
    {
      total := 0;
      var rest := files;
      while rest != map[]
        invariant rest.Keys <= files.Keys && total + TotalBytes(rest) == TotalBytes(files)
        decreases |rest|
      {
        var n :| n in rest;
        TotalBytesSplit(rest, n);
        total := total + |rest[n]|;
        rest := rest - {n};
      }
    }

    method NextSeq() returns (next: nat)
      ensures next == NextNumber(files)
    {
      var max := 0;
      var rest := files.Keys;
      while rest != {}
        invariant rest <= files.Keys
        invariant IsMaxSeq(files.Keys - rest, max)
        decreases rest
      {
        var n :| n in rest;
        var number := SeqNumber(n);
        if number.Some? && number.value > max {
          max := number.value;
        }
        rest := rest - {n};
      }
      assert files.Keys - rest == files.Keys;
      next := max + 1;
    }

    method DropOldest()
      modifies this
      ensures files == if ChunkFiles(old(files)) == {} then old(files)
                       else old(files) - {OldestChunk(old(files))}
    {
      var paths := ChunkPaths(false);
      if paths != [] {
        files := files - {paths[0]};
      }
    }

    /** The eviction loop of `write_chunk`. */
    method MakeRoom(limit: nat)
      modifies this
      ensures files == Evicted(old(files), limit)
    {
      var total := TotalSize();
      while total > limit
        invariant total == TotalBytes(files)
        invariant Evicted(files, limit) == Evicted(old(files), limit)
        decreases |files|
      {
        DropOldest();
        var left := ChunkPaths(true);
        if left == [] {
          break;
        }
        total := TotalSize();
      }
    }

    /** `fs::write`. */
    method WriteFile(path: string, data: seq<Byte>)
      modifies this
      ensures files == old(files)[path := data]
    {
      files := files[path := data];
    }

    /** `fs::rename`: the target is replaced if it exists. */
    method Rename(source: string, target: string)
      requires source in files
      modifies this
      ensures files == (old(files) - {source})[target := old(files)[source]]
    {
      files := (files - {source})[target := files[source]];
    }

    /** `Buffer::delete_chunk`: by path; false when no such file is there. */
    method Delete(path: string) returns (ok: bool)
      modifies this
      ensures files == old(files) - {path}
      ensures ok == (path in old(files))
    {
      ok := path in files;
      files := files - {path};
    }
  }

  // ---- the buffer ------------------------------------------------------------------

  /** What `push` does to memory and directory, as a function of their old values. */
  ghost function PushedMemory(cfg: BufferConfig, memory: seq<LogEntry>, e: LogEntry): seq<LogEntry>
  {
    if |memory| >= cfg.memoryMax then [e] else memory + [e]
  }

  ghost function FlushedFiles(cfg: BufferConfig, codec: Codec, memory: seq<LogEntry>, files: Files): Files
    requires cfg.Valid()
  {
    WrittenAll(files, cfg.maxBytes, codec, Chunks(memory, cfg.chunkMax))
  }

  class Buffer {
    const cfg: BufferConfig
    const codec: Codec
    const dir: SpoolDir
    var memory: seq<LogEntry>
    var mayHaveChunks: bool

    ghost predicate Valid()
      reads this, dir
    {
      && cfg.Valid()
      && |memory| <= cfg.memoryMax
      && (!mayHaveChunks ==> ChunkFiles(dir.files) == {})
    }

    constructor (cfg: BufferConfig, codec: Codec, dir: SpoolDir)
      requires cfg.Valid()
      ensures Valid() && memory == [] && this.dir == dir && this.cfg == cfg && this.codec == codec
      ensures mayHaveChunks <==> ChunkFiles(dir.files) != {}
    {
      var paths := dir.ChunkPaths(true);
      this.cfg := cfg;
      this.codec := codec;
      this.dir := dir;
      this.memory := [];
      this.mayHaveChunks := paths != [];
    }

    method Push(e: LogEntry)
      requires Valid()
      modifies this, dir
      ensures Valid()
      ensures memory == PushedMemory(cfg, old(memory), e)
      ensures dir.files == if |old(memory)| >= cfg.memoryMax
                           then FlushedFiles(cfg, codec, old(memory), old(dir.files)) else old(dir.files)
      ensures mayHaveChunks == (old(mayHaveChunks) || |old(memory)| >= cfg.memoryMax)
    {
      if |memory| >= cfg.memoryMax {
        FlushMemoryToDisk();
      }
      memory := memory + [e];
    }

    method FlushMemoryToDisk()
      requires Valid()
      modifies this, dir
      ensures Valid() && memory == []
      ensures dir.files == FlushedFiles(cfg, codec, old(memory), old(dir.files))
      ensures mayHaveChunks == (old(mayHaveChunks) || old(memory) != [])
    {
      if memory == [] {
        return;
      }
      var chunks := Chunks(memory, cfg.chunkMax);
      ghost var files0 := dir.files;
      memory := [];
      var i := 0;
      while i < |chunks|
        invariant 0 <= i <= |chunks|
        invariant Valid() && memory == []
        invariant dir.files == WrittenAll(files0, cfg.maxBytes, codec, chunks[..i])
        invariant mayHaveChunks == (old(mayHaveChunks) || i > 0)
      {
        WriteChunk(chunks[i]);
        WrittenAllStep(files0, cfg.maxBytes, codec, chunks, i);
        i := i + 1;
      }
      assert chunks[..i] == chunks;
    }

    method WriteChunk(entries: seq<LogEntry>)
      requires Valid()
      modifies this`mayHaveChunks, dir
      ensures Valid() && mayHaveChunks && unchanged(`memory)
      ensures dir.files == Written(old(dir.files), cfg.maxBytes, codec.encode(entries))
    {
      dir.MakeRoom(cfg.maxBytes);
      var n := dir.NextSeq();
      var data := codec.encode(entries);
      dir.WriteFile(TmpName(n), data);
      dir.Rename(TmpName(n), ChunkName(n));
      mayHaveChunks := true;
    }

    method DrainMemory() returns (drained: seq<LogEntry>)
      requires Valid()
      modifies this`memory
      ensures Valid() && memory == [] && drained == old(memory)
    {
      drained := memory;
      memory := [];
    }

    /** The shortcut never changes the answer: it is always the newest chunk on disk. */
    method NextDiskChunk() returns (next: Option<string>)
      requires Valid()
      modifies this`mayHaveChunks
      ensures Valid()
      ensures next == NewestChunk(dir.files)
      ensures mayHaveChunks <==> next.Some?
    {
      if !mayHaveChunks {
        return None;
      }
      var paths := dir.ChunkPaths(true);
      if paths == [] {
        mayHaveChunks := false;
        return None;
      }
      next := Some(paths[0]);
    }

    /** `Buffer::read_chunk`: None for a missing file and for undecodable bytes. */
    method ReadChunk(path: string) returns (r: Option<seq<LogEntry>>)
      ensures r == if path in dir.files then codec.decode(dir.files[path]) else None
    {
      r := if path in dir.files then codec.decode(dir.files[path]) else None;
    }
  }
}
