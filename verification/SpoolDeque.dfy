/** The spool directory refines a plain deque of chunks, oldest first: writing
    pushes at the back, eviction pops a shortest sufficient prefix at the front,
    and publishing takes from the back (src/buffer.rs:24-106, 144-216). */
module SpoolDeque {
  import opened Prelude
  import opened Decimal
  import opened LogEntries
  import opened SpoolNames
  import opened Spool

  datatype Chunk = Chunk(num: nat, data: seq<Byte>)

  /** Everything in the directory that is not a chunk. */
  ghost function Others(files: Files): Files
  {
    map n | n in files && !IsChunkFile(n) :: files[n]
  }

  ghost predicate Ascending(q: seq<Chunk>)
  {
    && (forall i :: 0 <= i < |q| ==> q[i].num < NAME_LIMIT)
    && (forall i, j :: 0 <= i < j < |q| ==> q[i].num < q[j].num)
  }

  ghost predicate Represents(files: Files, q: seq<Chunk>)
  {
    && Ascending(q)
    && (forall i :: 0 <= i < |q| ==> ChunkName(q[i].num) in files && files[ChunkName(q[i].num)] == q[i].data)
    && (forall n :: n in ChunkFiles(files) ==> exists i :: 0 <= i < |q| && n == ChunkName(q[i].num))
  }

  function Contents(q: seq<Chunk>): (r: seq<seq<Byte>>)
    ensures |r| == |q| && forall i :: 0 <= i < |q| ==> r[i] == q[i].data
  {
    seq(|q|, i requires 0 <= i < |q| => q[i].data)
  }

  function SumBytes(q: seq<Chunk>): nat
  {
    if q == [] then 0 else |q[0].data| + SumBytes(q[1..])
  }

  // ---- the two ends ------------------------------------------------------------------

  /** Eviction takes the front: the smallest number. */
  lemma FrontIsOldest(files: Files, q: seq<Chunk>)
    requires Represents(files, q) && q != []
    ensures ChunkFiles(files) != {}
    ensures OldestChunk(files) == ChunkName(q[0].num)
    ensures Represents(files - {ChunkName(q[0].num)}, q[1..])
    ensures Others(files - {ChunkName(q[0].num)}) == Others(files)
  {
    hide ChunkName, IsChunkFile, TmpName, SeqNumber;
    var oldest := ChunkName(q[0].num);
    ChunkNameRecognised(q[0].num);
    assert oldest in ChunkFiles(files);
    forall m | m in ChunkFiles(files) && m != oldest ensures LexLt(oldest, m) {
      var i :| 0 <= i < |q| && m == ChunkName(q[i].num);
      NameOrder(q[0].num, q[i].num);
    }
    OldestUnique(ChunkFiles(files), oldest, OldestChunk(files));
    Without(files, q, 0);
    assert q[..0] + q[1..] == q[1..];
  }

  /** Publishing takes the back: the largest number. */
  lemma BackIsNewest(files: Files, q: seq<Chunk>)
    requires Represents(files, q)
    ensures NewestChunk(files) == if q == [] then None else Some(ChunkName(q[|q| - 1].num))
    ensures q != [] ==> Represents(files - {ChunkName(q[|q| - 1].num)}, q[..|q| - 1])
  {
    hide ChunkName, IsChunkFile, TmpName, SeqNumber;
    if q != [] {
      var k := |q| - 1;
      var newest := ChunkName(q[k].num);
      ChunkNameRecognised(q[k].num);
      assert newest in ChunkFiles(files);
      forall m | m in ChunkFiles(files) && m != newest ensures LexLt(m, newest) {
        var i :| 0 <= i < |q| && m == ChunkName(q[i].num);
        NameOrder(q[i].num, q[k].num);
      }
      NewestUnique(ChunkFiles(files), newest, NewestChunk(files).value);
      Without(files, q, k);
      assert q[..k] + q[k + 1..] == q[..k];
    } else {
      assert ChunkFiles(files) == {};
    }
  }

  lemma Without(files: Files, q: seq<Chunk>, k: nat)
    requires Represents(files, q) && k < |q|
    ensures Represents(files - {ChunkName(q[k].num)}, q[..k] + q[k + 1..])
    ensures Others(files - {ChunkName(q[k].num)}) == Others(files)
  {
    hide ChunkName, IsChunkFile, TmpName, SeqNumber;
    var gone := ChunkName(q[k].num);
    var rest := q[..k] + q[k + 1..];
    ChunkNameRecognised(q[k].num);
    forall i | 0 <= i < |rest| ensures ChunkName(rest[i].num) != gone {
      if ChunkName(rest[i].num) == gone {
        ChunkNamesDistinct(rest[i].num, q[k].num);
      }
    }
    forall n | n in ChunkFiles(files - {gone})
      ensures exists i :: 0 <= i < |rest| && n == ChunkName(rest[i].num)
    {
      assert n in ChunkFiles(files);
      var i :| 0 <= i < |q| && n == ChunkName(q[i].num);
      assert rest[if i < k then i else i - 1] == q[i];
    }
  }

  /** Every chunk is named as the daemon names chunks of at most ten digits. */
  ghost predicate TenDigitNames(files: Files)
  {
    forall n :: n in ChunkFiles(files) ==> exists k: nat :: k < NAME_LIMIT && n == ChunkName(k)
  }

  lemma {:induction false} DequeOf(files: Files)
    requires TenDigitNames(files)
    ensures exists q :: Represents(files, q)
    decreases |files|
  {
    hide ChunkName, IsChunkFile, TmpName, SeqNumber;
    if ChunkFiles(files) == {} {
      assert Represents(files, []);
    } else {
      var top := NewestChunk(files).value;
      var k: nat :| k < NAME_LIMIT && top == ChunkName(k);
      var rest := files - {top};
      forall n | n in ChunkFiles(rest) ensures exists k: nat :: k < NAME_LIMIT && n == ChunkName(k) {
        assert n in ChunkFiles(files);
      }
      DequeOf(rest);
      var q :| Represents(rest, q);
      var all := q + [Chunk(k, files[top])];
      forall i | 0 <= i < |q| ensures q[i].num < k {
        ChunkNameRecognised(q[i].num);
        assert ChunkName(q[i].num) in ChunkFiles(files);
        NameOrder(q[i].num, k);
      }
      forall n | n in ChunkFiles(files) ensures exists i :: 0 <= i < |all| && n == ChunkName(all[i].num) {
        if n == top {
          assert all[|q|].num == k;
        } else {
          assert n in ChunkFiles(rest);
          var i :| 0 <= i < |q| && n == ChunkName(q[i].num);
          assert all[i] == q[i];
        }
      }
      assert Represents(files, all);
    }
  }

  /** A directory is such a deque if and only if all its chunks have ten-digit names. (The
      daemon also takes files like 1.cbor for chunks; it never writes them.) */
  lemma DequeExists(files: Files)
    ensures (exists q: seq<Chunk> :: Represents(files, q)) <==> TenDigitNames(files)
  {
    hide ChunkName, IsChunkFile;
    if TenDigitNames(files) {
      DequeOf(files);
    }
    if exists q: seq<Chunk> :: Represents(files, q) {
      var q: seq<Chunk> :| Represents(files, q);
      forall n | n in ChunkFiles(files) ensures exists k: nat :: k < NAME_LIMIT && n == ChunkName(k) {
        var i :| 0 <= i < |q| && n == ChunkName(q[i].num);
      }
    }
  }

  lemma {:induction false} DequeUnique(files: Files, p: seq<Chunk>, q: seq<Chunk>)
    requires Represents(files, p) && Represents(files, q)
    ensures p == q
    decreases |p|
  {
    hide ChunkName, IsChunkFile, TmpName, SeqNumber;
    BackIsNewest(files, p);
    BackIsNewest(files, q);
    if p != [] {
      var i, j := |p| - 1, |q| - 1;
      ChunkNamesDistinct(p[i].num, q[j].num);
      DequeUnique(files - {ChunkName(p[i].num)}, p[..i], q[..j]);
      assert p == p[..i] + [p[i]] && q == q[..j] + [q[j]];
    }
  }

  // ---- sizes and eviction --------------------------------------------------------------

  lemma {:induction false} SizeOfDeque(files: Files, q: seq<Chunk>)
    requires Represents(files, q)
    ensures TotalBytes(files) == TotalBytes(Others(files)) + SumBytes(q)
    decreases |q|
  {
    hide ChunkName, IsChunkFile, TmpName, SeqNumber;
    if q == [] {
      assert Others(files) == files by {
        assert forall n :: n in files ==> n !in ChunkFiles(files);
      }
    } else {
      FrontIsOldest(files, q);
      TotalBytesSplit(files, ChunkName(q[0].num));
      SizeOfDeque(files - {ChunkName(q[0].num)}, q[1..]);
    }
  }

  /** How many chunks one eviction drops: the length of the shortest prefix whose
      removal brings the total within the limit, or all of them. */
  function EvictCount(q: seq<Chunk>, base: nat, limit: nat): (j: nat)
    ensures j <= |q|
    ensures j == |q| || base + SumBytes(q[j..]) <= limit
    ensures forall i :: 0 <= i < j ==> base + SumBytes(q[i..]) > limit
  {
    if q == [] || base + SumBytes(q) <= limit then
      assert q[0..] == q;
      0
    else
      var j := EvictCount(q[1..], base, limit);
      assert q[0..] == q && q[1..][j..] == q[j + 1..];
      assert forall i :: 0 < i <= |q| ==> q[i..] == q[1..][i - 1..];
      j + 1
  }

  lemma {:induction false} EvictionPopsFront(files: Files, q: seq<Chunk>, limit: nat)
    requires Represents(files, q)
    ensures Represents(Evicted(files, limit), q[EvictCount(q, TotalBytes(Others(files)), limit)..])
    ensures Others(Evicted(files, limit)) == Others(files)
    ensures Evicted(files, limit).Keys <= files.Keys
    decreases |q|
  {
    hide ChunkName, IsChunkFile, TmpName, SeqNumber;
    SizeOfDeque(files, q);
    var base := TotalBytes(Others(files));
    if q == [] {
      assert ChunkFiles(files) == {};
      assert q[0..] == q;
    } else if base + SumBytes(q) <= limit {
      assert q[0..] == q;
    } else {
      FrontIsOldest(files, q);
      EvictionPopsFront(files - {ChunkName(q[0].num)}, q[1..], limit);
      var j := EvictCount(q[1..], base, limit);
      assert q[1..][j..] == q[j + 1..];
    }
  }

  // ---- writing ------------------------------------------------------------------------

  lemma FewerNamesLowerNumber(files: Files, more: Files)
    requires files.Keys <= more.Keys
    ensures NextNumber(files) <= NextNumber(more)
  {
  }

  lemma NumbersBelowNext(files: Files, q: seq<Chunk>)
    requires Represents(files, q)
    ensures forall i :: 0 <= i < |q| ==> q[i].num < NextNumber(files)
  {
    hide ChunkName, IsChunkFile, SeqNumber;
    forall i | 0 <= i < |q| ensures q[i].num < NextNumber(files) {
      ChunkNameRecognised(q[i].num);
      assert SeqNumber(ChunkName(q[i].num)) == Some(q[i].num);
    }
  }

  lemma Replaced(files: Files, q: seq<Chunk>, n: nat, data: seq<Byte>)
    requires Represents(files, q) && n == NextNumber(files) < NAME_LIMIT
    ensures Represents((files - {TmpName(n)})[ChunkName(n) := data], q + [Chunk(n, data)])
  {
    hide ChunkName, IsChunkFile, SeqNumber, TmpName;
    NumbersBelowNext(files, q);
    TmpNameIgnored(n);
    NextNameFresh(files);
    var files' := (files - {TmpName(n)})[ChunkName(n) := data];
    var q' := q + [Chunk(n, data)];
    forall i | 0 <= i < |q|
      ensures ChunkName(q[i].num) in files' && files'[ChunkName(q[i].num)] == q[i].data
    {
      ChunkNameRecognised(q[i].num);
      assert ChunkName(q[i].num) in files;
    }
    forall m | m in ChunkFiles(files') ensures exists i :: 0 <= i < |q'| && m == ChunkName(q'[i].num) {
      if m == ChunkName(n) {
        assert q'[|q|].num == n;
      } else {
        assert m in ChunkFiles(files);
        var i :| 0 <= i < |q| && m == ChunkName(q[i].num);
        assert q'[i] == q[i];
      }
    }
  }

  lemma NextAfterReplace(files: Files, n: nat, data: seq<Byte>)
    requires n == NextNumber(files) < U64
    ensures NextNumber((files - {TmpName(n)})[ChunkName(n) := data]) == n + 1
    ensures Others((files - {TmpName(n)})[ChunkName(n) := data]) == Others(files) - {TmpName(n)}
  {
    hide ChunkName, IsChunkFile, SeqNumber, TmpName;
    ChunkNameRecognised(n);
    NextNameFresh(files);
    var files' := (files - {TmpName(n)})[ChunkName(n) := data];
    assert ChunkName(n) in files'.Keys && SeqNumber(ChunkName(n)) == Some(n);
    assert IsMaxSeq(files'.Keys, n);
    NextNumberUnique(files', n);
  }

  /** A written chunk is fresh, strictly newest, and pushed at the back of what
      eviction leaves. */
  lemma WritePushesBack(files: Files, q: seq<Chunk>, limit: nat, data: seq<Byte>) returns (j: nat, n: nat)
    requires Represents(files, q) && NextNumber(files) < NAME_LIMIT
    ensures j == EvictCount(q, TotalBytes(Others(files)), limit) && j <= |q|
    ensures n == NextNumber(Evicted(files, limit)) <= NextNumber(files)
    ensures ChunkName(n) !in Evicted(files, limit)
    ensures forall i :: j <= i < |q| ==> q[i].num < n
    ensures Represents(Written(files, limit, data), q[j..] + [Chunk(n, data)])
    ensures Others(Written(files, limit, data)) == Others(files) - {TmpName(n)}
    ensures NextNumber(Written(files, limit, data)) == n + 1
  {
    hide ChunkName, IsChunkFile, SeqNumber, TmpName, Represents;
    j := EvictCount(q, TotalBytes(Others(files)), limit);
    var kept := Evicted(files, limit);
    EvictionPopsFront(files, q, limit);
    FewerNamesLowerNumber(kept, files);
    n := NextNumber(kept);
    NextNameFresh(kept);
    NumbersBelowNext(kept, q[j..]);
    assert forall i :: j <= i < |q| ==> q[i] == q[j..][i - j];
    Replaced(kept, q[j..], n, data);
    NextAfterReplace(kept, n, data);
  }

  lemma {:induction false} SizeMonotone(files: Files, n: string)
    ensures TotalBytes(files - {n}) <= TotalBytes(files)
  {
    if n in files {
      TotalBytesSplit(files, n);
    } else {
      assert files - {n} == files;
    }
  }

  lemma {:induction false} SumAppend(q: seq<Chunk>, c: Chunk)
    ensures SumBytes(q + [c]) == SumBytes(q) + |c.data|
  {
    if q == [] {
      assert (q + [c])[1..] == [];
    } else {
      assert (q + [c])[1..] == q[1..] + [c];
      SumAppend(q[1..], c);
    }
  }

  /** The size check happens before the write, so the limit can be exceeded, but
      by no more than the new chunk (or what the non-chunk files already take). */
  lemma WriteSizeBound(files: Files, q: seq<Chunk>, limit: nat, data: seq<Byte>)
    requires Represents(files, q) && NextNumber(files) < NAME_LIMIT
    ensures TotalBytes(Written(files, limit, data)) <= Max(limit, TotalBytes(Others(files))) + |data|
  {
    hide ChunkName, IsChunkFile, TmpName, SeqNumber;
    var j, n := WritePushesBack(files, q, limit, data);
    SizeOfDeque(Written(files, limit, data), q[j..] + [Chunk(n, data)]);
    SumAppend(q[j..], Chunk(n, data));
    SizeMonotone(Others(files), TmpName(n));
  }

  function Max(a: nat, b: nat): nat { if a < b then b else a }

  // ---- flushing -----------------------------------------------------------------------

  function Encoded(codec: Codec, slices: seq<seq<LogEntry>>): (r: seq<seq<Byte>>)
    ensures |r| == |slices|
  {
    if slices == [] then [] else [codec.encode(slices[0])] + Encoded(codec, slices[1..])
  }

  lemma DropTwice<T>(a: seq<T>, x: T, b: seq<T>, j: nat, k: nat)
    requires j <= |a| && k <= |a| - j + 1 + |b|
    ensures ((a[j..] + [x]) + b)[k..] == (a + ([x] + b))[j + k..]
  {
    assert (a[j..] + [x]) + b == (a + ([x] + b))[j..];
  }

  lemma PopPush(q: seq<Chunk>, j: nat, c: Chunk)
    requires j <= |q|
    ensures Contents(q[j..] + [c]) == Contents(q)[j..] + [c.data]
  {
  }

  lemma SuffixStep(q: seq<Chunk>, j: nat, c: Chunk, codec: Codec, slices: seq<seq<LogEntry>>, k: nat)
    requires slices != [] && c.data == codec.encode(slices[0])
    requires j <= |q| && k <= |q| - j + |slices|
    ensures (Contents(q[j..] + [c]) + Encoded(codec, slices[1..]))[k..]
         == (Contents(q) + Encoded(codec, slices))[j + k..]
  {
    PopPush(q, j, c);
    var rest := Encoded(codec, slices[1..]);
    assert Encoded(codec, slices) == [c.data] + rest;
    hide *;
    DropTwice(Contents(q), c.data, rest, j, k);
  }

  /** After writing some slices the deque holds a suffix of (old chunks ++ slices),
      and that suffix keeps at least the last slice. */
  lemma {:induction false} WritesKeepASuffix(files: Files, q: seq<Chunk>, limit: nat, codec: Codec, slices: seq<seq<LogEntry>>)
    returns (q': seq<Chunk>, dropped: nat)
    requires Represents(files, q) && NextNumber(files) + |slices| <= NAME_LIMIT
    ensures Represents(WrittenAll(files, limit, codec, slices), q')
    ensures dropped <= |q| + |slices| && (slices != [] ==> dropped < |q| + |slices|)
    ensures Contents(q') == (Contents(q) + Encoded(codec, slices))[dropped..]
    decreases |slices|
  {
    hide ChunkName, IsChunkFile, TmpName, SeqNumber, Represents, Written, EvictCount, Evicted, TotalBytes, Others, Ascending;
    if slices == [] {
      q', dropped := q, 0;
    } else {
      var data := codec.encode(slices[0]);
      var j, n := WritePushesBack(files, q, limit, data);
      var mid := q[j..] + [Chunk(n, data)];
      var later;
      q', later := WritesKeepASuffix(Written(files, limit, data), mid, limit, codec, slices[1..]);
      dropped := j + later;
      SuffixStep(q, j, Chunk(n, data), codec, slices, later);
      if slices[1..] == [] {
        DequeUnique(Written(files, limit, data), q', mid);
      }
    }
  }

  /** One flush of the memory queue: it is cut into ceil(|memory| / chunkMax)
      slices, and the spool becomes a suffix of (old spool ++ those slices) that
      contains the last of them. */
  lemma FlushKeepsASuffix(cfg: BufferConfig, codec: Codec, memory: seq<LogEntry>, files: Files, q: seq<Chunk>)
    returns (q': seq<Chunk>, dropped: nat)
    requires cfg.Valid() && Represents(files, q) && memory != []
    requires NextNumber(files) + Ceiling(|memory|, cfg.chunkMax) <= NAME_LIMIT
    ensures var slices := Chunks(memory, cfg.chunkMax);
      && Flatten(slices) == memory
      && |slices| == Ceiling(|memory|, cfg.chunkMax)
      && Represents(FlushedFiles(cfg, codec, memory, files), q')
      && dropped < |q| + |slices|
      && Contents(q') == (Contents(q) + Encoded(codec, slices))[dropped..]
  {
    hide ChunkName, IsChunkFile, TmpName, SeqNumber;
    ChunksFlatten(memory, cfg.chunkMax);
    ChunksCount(memory, cfg.chunkMax);
    q', dropped := WritesKeepASuffix(files, q, cfg.maxBytes, codec, Chunks(memory, cfg.chunkMax));
  }
}
