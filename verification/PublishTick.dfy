/** `publish_tick` in its own imperative form (src/orchestrator.rs:141-226). A tick
    that nobody interleaves with is one of the runs of the state machine, made of the
    publisher's and the lock holder's own steps only, so the run theorems apply to it. */
module PublishTick {
  import opened Prelude
  import opened LogEntries
  import opened SpoolNames
  import opened Spool
  import opened Orchestrator
  import opened LogLedger
  import opened LogRuns
  import opened LogHolder
  import SpoolDeque

  // ---- runs made of some kinds of steps --------------------------------------------------------

  /** The run `events` leads from s to t, hands off `handed`, loses nothing to a failed
      flush, and is made of steps of these kinds. */
  ghost predicate Did(cfg: Config, s: State, events: seq<Event>, t: State, handed: seq<LogEntry>, kinds: set<Kind>)
  {
    && cfg.Valid() && IsRun(cfg, s, events) && Only(events, kinds)
    && var o := Run(cfg, s, events); o.state == t && o.bill.handed == handed && o.bill.flushLost == []
  }

  lemma DidNothing(cfg: Config, s: State, kinds: set<Kind>)
    requires cfg.Valid()
    ensures Did(cfg, s, [], s, [], kinds)
  {
  }

  lemma DidThen(cfg: Config, s: State, a: seq<Event>, t: State, sent: seq<LogEntry>,
                b: seq<Event>, u: State, more: seq<LogEntry>, kinds: set<Kind>)
    requires Did(cfg, s, a, t, sent, kinds) && Did(cfg, t, b, u, more, kinds)
    ensures Did(cfg, s, a + b, u, sent + more, kinds)
  {
    hide Run, IsRun, KindOf;
    RunConcat(cfg, s, a, b);
  }

  /** A run, then one more step. */
  lemma ThenStep(cfg: Config, s: State, a: seq<Event>, t: State, sent: seq<LogEntry>, ev: Event, kinds: set<Kind>)
    requires Did(cfg, s, a, t, sent, kinds) && KindOf(ev) in kinds
    requires Enabled(cfg, t, ev) && Step(cfg, t, ev).bill.flushLost == []
    ensures Did(cfg, s, a + [ev], Step(cfg, t, ev).state, sent + Step(cfg, t, ev).bill.handed, kinds)
  {
    hide Run, IsRun, Step, Enabled, KindOf;
    Extend(cfg, s, a, ev);
  }

  /** Steps of these kinds that hand nothing off. */
  ghost predicate Moved(cfg: Config, s: State, events: seq<Event>, t: State, kinds: set<Kind>)
  {
    Did(cfg, s, events, t, [], kinds)
  }

  lemma MovedThen(cfg: Config, s: State, a: seq<Event>, t: State, b: seq<Event>, u: State, kinds: set<Kind>)
    requires Moved(cfg, s, a, t, kinds) && Moved(cfg, t, b, u, kinds)
    ensures Moved(cfg, s, a + b, u, kinds)
  {
    hide Did;
    DidThen(cfg, s, a, t, [], b, u, [], kinds);
    assert NOTHING.handed + NOTHING.handed == [];
  }

  lemma MovedStep(cfg: Config, s: State, a: seq<Event>, t: State, ev: Event, kinds: set<Kind>)
    requires Moved(cfg, s, a, t, kinds) && KindOf(ev) in kinds
    requires Enabled(cfg, t, ev) && Step(cfg, t, ev).bill.flushLost == [] && Step(cfg, t, ev).bill.handed == []
    ensures Moved(cfg, s, a + [ev], Step(cfg, t, ev).state, kinds)
  {
    hide Did, Step, Enabled, KindOf;
    ThenStep(cfg, s, a, t, [], ev, kinds);
    assert NOTHING.handed + NOTHING.handed == [];
  }

  lemma FirstStep(cfg: Config, s: State, ev: Event, kinds: set<Kind>)
    requires cfg.Valid() && KindOf(ev) in kinds
    requires Enabled(cfg, s, ev) && Step(cfg, s, ev).bill.flushLost == [] && Step(cfg, s, ev).bill.handed == []
    ensures Moved(cfg, s, [ev], Step(cfg, s, ev).state, kinds)
  {
    hide Did, Step, Enabled, KindOf;
    DidNothing(cfg, s, kinds);
    MovedStep(cfg, s, [], s, ev, kinds);
    assert [] + [ev] == [ev];
  }

  // ---- the lock holder's steps, uninterrupted, add up to the buffer's methods -----------------

  /** Everything a lock holder leaves alone. */
  ghost predicate SameHolder(s: State, t: State)
  {
    && s.lock.Held? && t.lock.Held? && t.lock.owner == s.lock.owner && t.lock.pushes == s.lock.pushes
    && t.pub == s.pub && t.memory == s.memory
  }

  /** One turn of the eviction loop, or its end. */
  lemma EvictOne(cfg: Config, s: State) returns (events: seq<Event>, t: State)
    requires cfg.Valid() && CanCheckSize(s)
    ensures Moved(cfg, s, events, t, {Holding})
    ensures SameHolder(s, t) && t.lock.slices == s.lock.slices && t.mayHaveChunks == s.mayHaveChunks
    ensures var done := TotalBytes(s.files) <= cfg.buffer.maxBytes || ChunkFiles(s.files) == {};
      && t.files == (if done then s.files else s.files - {OldestChunk(s.files)})
      && t.lock.stage == if done || ChunkFiles(t.files) == {} then Naming else SizeCheck
  {
    hide TotalBytes, Run, IsRun, Moved, IsChunkFile, EntriesAt;
    FirstStep(cfg, s, CheckSize, {Holding});
    events, t := [CheckSize], DoCheckSize(cfg, s).state;
    if TotalBytes(s.files) > cfg.buffer.maxBytes {
      MovedStep(cfg, s, events, t, ListOldest, {Holding});
      events, t := events + [ListOldest], DoListOldest(t).state;
      if ChunkFiles(s.files) != {} {
        MovedStep(cfg, s, events, t, DropOldest, {Holding});
        events, t := events + [DropOldest], DoDropOldest(cfg, t).state;
      }
      MovedStep(cfg, s, events, t, Relist, {Holding});
      events, t := events + [Relist], DoRelist(t).state;
    }
  }

  lemma {:induction false} EvictionSteps(cfg: Config, s: State) returns (events: seq<Event>, t: State)
    requires cfg.Valid() && CanCheckSize(s)
    ensures Moved(cfg, s, events, t, {Holding})
    ensures SameHolder(s, t) && t.lock.slices == s.lock.slices && t.lock.stage == Naming
    ensures t.files == Evicted(s.files, cfg.buffer.maxBytes) && t.mayHaveChunks == s.mayHaveChunks
    decreases |s.files|
  {
    hide TotalBytes, Moved, IsChunkFile;
    events, t := EvictOne(cfg, s);
    if t.lock.stage.SizeCheck? {
      var more, u := EvictionSteps(cfg, t);
      MovedThen(cfg, s, events, t, more, u, {Holding});
      events, t := events + more, u;
    }
  }

  lemma {:induction false} EvictedKeys(files: Files, limit: nat)
    ensures Evicted(files, limit).Keys <= files.Keys
    decreases |files|
  {
    hide TotalBytes;
    if !(TotalBytes(files) <= limit || ChunkFiles(files) == {}) {
      EvictedKeys(files - {OldestChunk(files)}, limit);
    }
  }

  lemma TmpThenRename(cfg: Config, s: State) returns (events: seq<Event>, t: State)
    requires cfg.Valid() && s.lock.Held? && s.lock.stage.Naming? && s.lock.slices != [] && NextNumber(s.files) < U64
    ensures Moved(cfg, s, events, t, {Holding})
    ensures SameHolder(s, t) && t.lock.slices == s.lock.slices[1..] && t.mayHaveChunks
    ensures t.lock.stage == if |s.lock.slices| > 1 then SizeCheck else Ready
    ensures var n := NextNumber(s.files);
      t.files == (s.files - {TmpName(n)})[ChunkName(n) := cfg.codec.encode(s.lock.slices[0])]
  {
    var s1, s2, k := DoPickNumber(s).state, s, |cfg.codec.encode(s.lock.slices[0])|;
    hide Step, Enabled, Moved, ChunkName, TmpName, NextNumber;
    NumberingStep(cfg, s);
    FirstStep(cfg, s, PickNumber, {Holding});
    s2 := TmpStep(cfg, s1);
    MovedStep(cfg, s, [PickNumber], s1, WriteTmp(k), {Holding});
    t := RenameStep(cfg, s2);
    MovedStep(cfg, s, [PickNumber] + [WriteTmp(k)], s2, Rename, {Holding});
    events := [PickNumber] + [WriteTmp(k)] + [Rename];
    var n := NextNumber(s.files);
    assert s2.files - {TmpName(n)} == s.files - {TmpName(n)};
  }

  /** A step that hands nothing off and loses nothing. */
  ghost predicate QuietStep(cfg: Config, s: State, ev: Event, t: State)
    requires cfg.Valid()
  {
    && Enabled(cfg, s, ev) && Step(cfg, s, ev).state == t
    && Step(cfg, s, ev).bill.flushLost == [] && Step(cfg, s, ev).bill.handed == []
  }

  lemma NumberingStep(cfg: Config, s: State)
    requires cfg.Valid() && CanPickNumber(s)
    ensures QuietStep(cfg, s, PickNumber, DoPickNumber(s).state)
  {
    hide NextNumber;
  }

  lemma TmpStep(cfg: Config, s: State) returns (t: State)
    requires cfg.Valid() && s.lock.Held? && s.lock.slices != [] && s.lock.stage.Numbered?
    ensures QuietStep(cfg, s, WriteTmp(|cfg.codec.encode(s.lock.slices[0])|), t)
    ensures var data := cfg.codec.encode(s.lock.slices[0]);
      t == s.(files := s.files[TmpName(s.lock.stage.n) := data], lock := s.lock.(stage := Writing(s.lock.stage.n, |data|)))
  {
    hide ChunkName, TmpName;
    var data := cfg.codec.encode(s.lock.slices[0]);
    assert data[..|data|] == data;
    t := DoWriteTmp(cfg, s, |data|).state;
  }

  lemma RenameStep(cfg: Config, s: State) returns (t: State)
    requires cfg.Valid() && CanRename(cfg, s)
    ensures QuietStep(cfg, s, Rename, t) && t == DoRename(cfg, s).state
  {
    hide ChunkName, TmpName;
    t := DoRename(cfg, s).state;
  }

  lemma WriteSteps(cfg: Config, s: State) returns (events: seq<Event>, t: State)
    requires cfg.Valid() && CanCheckSize(s) && s.lock.slices != [] && NextNumber(s.files) < U64
    ensures Moved(cfg, s, events, t, {Holding})
    ensures SameHolder(s, t) && t.lock.slices == s.lock.slices[1..] && t.mayHaveChunks
    ensures t.lock.stage == if |s.lock.slices| > 1 then SizeCheck else Ready
    ensures t.files == Written(s.files, cfg.buffer.maxBytes, cfg.codec.encode(s.lock.slices[0]))
    ensures NextNumber(t.files) <= NextNumber(s.files) + 1
  {
    hide Moved, Evicted, ChunkName, TmpName, NextNumber;
    var s1, more;
    events, s1 := EvictionSteps(cfg, s);
    EvictedKeys(s.files, cfg.buffer.maxBytes);
    SpoolDeque.FewerNamesLowerNumber(s1.files, s.files);
    more, t := TmpThenRename(cfg, s1);
    MovedThen(cfg, s, events, s1, more, t, {Holding});
    events := events + more;
    SpoolDeque.NextAfterReplace(s1.files, NextNumber(s1.files), cfg.codec.encode(s.lock.slices[0]));
  }

  lemma {:induction false} FlushSteps(cfg: Config, s: State) returns (events: seq<Event>, t: State)
    requires cfg.Valid() && s.lock.Held? && s.lock.slices != [] && s.lock.stage.SizeCheck?
    requires NextNumber(s.files) + |s.lock.slices| <= U64
    ensures Moved(cfg, s, events, t, {Holding})
    ensures SameHolder(s, t) && t.lock.slices == [] && t.lock.stage == Ready && t.mayHaveChunks
    ensures t.files == WrittenAll(s.files, cfg.buffer.maxBytes, cfg.codec, s.lock.slices)
    ensures NextNumber(t.files) <= NextNumber(s.files) + |s.lock.slices|
    decreases |s.lock.slices|
  {
    hide Moved, Written, NextNumber;
    events, t := WriteSteps(cfg, s);
    if |s.lock.slices| > 1 {
      var more, u := FlushSteps(cfg, t);
      MovedThen(cfg, s, events, t, more, u, {Holding});
      events, t := events + more, u;
    } else {
      assert s.lock.slices[1..] == [];
    }
  }

  lemma {:induction false} FewerChunksThanEntries<T>(s: seq<T>, k: nat)
    requires k > 0
    ensures |Chunks(s, k)| <= |s|
  {
    if |s| > k {
      FewerChunksThanEntries(s[k..], k);
    }
  }

  /** Pushing the first waiting entry, with the flush it may need. */
  lemma PushSteps(cfg: Config, s: State) returns (events: seq<Event>, t: State)
    requires cfg.Valid() && CanPush(s) && s.lock.slices == []
    requires NextNumber(s.files) + |s.memory| <= U64
    ensures Moved(cfg, s, events, t, {Holding})
    ensures t.lock == s.lock.(pushes := s.lock.pushes[1..]) && t.pub == s.pub
    ensures t.memory == PushedMemory(cfg.buffer, s.memory, s.lock.pushes[0])
    ensures t.files == if |s.memory| >= cfg.buffer.memoryMax
                       then FlushedFiles(cfg.buffer, cfg.codec, s.memory, s.files) else s.files
    ensures t.mayHaveChunks == (s.mayHaveChunks || |s.memory| >= cfg.buffer.memoryMax)
    ensures NextNumber(t.files) + |t.memory| <= NextNumber(s.files) + |s.memory| + 1
  {
    hide Moved, NextNumber, WrittenAll;
    FirstStep(cfg, s, Push, {Holding});
    events, t := [Push], DoPush(cfg, s).state;
    if |s.memory| >= cfg.buffer.memoryMax {
      FewerChunksThanEntries(s.memory, cfg.buffer.chunkMax);
      var more, s2 := FlushSteps(cfg, t);
      MovedThen(cfg, s, events, t, more, s2, {Holding});
      events := events + more;
      MovedStep(cfg, s, events, s2, Push, {Holding});
      events, t := events + [Push], DoPush(cfg, s2).state;
    }
  }

  lemma {:induction false} HandOffSteps(cfg: Config, s: State, n: nat) returns (events: seq<Event>)
    requires cfg.Valid() && Sending(s.pub) && s.pub.sent == 0 && n <= BatchOf(Rest(s.pub))
    ensures Did(cfg, s, events, s.(pub := s.pub.(sent := n)), Rest(s.pub)[..n], {Sends})
  {
    hide Did;
    if n == 0 {
      events := [];
      DidNothing(cfg, s, {Sends});
    } else {
      events := HandOffSteps(cfg, s, n - 1);
      ThenStep(cfg, s, events, s.(pub := s.pub.(sent := n - 1)), Rest(s.pub)[..n - 1], HandOff, {Sends});
      events := events + [HandOff];
      assert Rest(s.pub)[..n] == Rest(s.pub)[..n - 1] + [Rest(s.pub)[n - 1]];
    }
  }

  // ---- the tick ---------------------------------------------------------------------------------------

  /** The MQTT client as the tick sees it: it takes messages until one fails. */
  class MqttPublisher {
    ghost var handed: seq<LogEntry>

    constructor ()
      ensures handed == []
    {
      handed := [];
    }

    method IsConnected() returns (connected: bool)
    {
      connected := *;
    }

    method PublishBatch(entries: seq<LogEntry>) returns (ok: bool, ghost n: nat)
      modifies this
      ensures n <= |entries| && (ok <==> n == |entries|)
      ensures handed == old(handed) + entries[..n]
    {
      n := 0;
      var i := 0;
      while i < |entries|
        invariant 0 <= i <= |entries| && n == i
        invariant handed == old(handed) + entries[..i]
      {
        var sent: bool := *;
        if !sent {
          return false, n;
        }
        handed := handed + [entries[i]];
        i, n := i + 1, n + 1;
      }
      ok := true;
    }
  }

  ghost function ConfigOf(buffer: Buffer): Config { Config(buffer.cfg, buffer.codec) }

  /** The buffer and its directory are those of the machine's state. */
  ghost predicate Mirrors(s: State, buffer: Buffer)
    reads buffer, buffer.dir
  {
    && ConfigOf(buffer).Valid() && buffer.Valid()
    && s.files == buffer.dir.files && s.memory == buffer.memory && s.mayHaveChunks == buffer.mayHaveChunks
  }

  ghost predicate AtRest(s: State) { s.lock.Free? && s.pub.Idle? }

  /** Pushing entries back under the lock, in the given order: the machine's own pushes
      and flushes, and nothing else. */
  method PushAll(buffer: Buffer, entries: seq<LogEntry>, ghost s: State) returns (ghost events: seq<Event>, ghost t: State)
    requires Mirrors(s, buffer) && s.lock.Held?
    requires s.lock.slices == [] && s.lock.stage == Ready && s.lock.pushes == entries
    requires NextNumber(buffer.dir.files) + |buffer.memory| + |entries| <= U64
    modifies buffer, buffer.dir
    ensures Mirrors(t, buffer) && Moved(ConfigOf(buffer), s, events, t, {Holding})
    ensures t.lock == s.lock.(pushes := []) && t.pub == s.pub
    ensures (buffer.memory, buffer.dir.files)
         == AfterPushes(buffer.cfg, buffer.codec, old(buffer.memory), old(buffer.dir.files), entries)
  {
    hide Did, NextNumber, WrittenAll, Chunks, PushedMemory, FlushedFiles;
    ghost var cfg := ConfigOf(buffer);
    DidNothing(cfg, s, {Holding});
    events, t := [], s;
    var i := 0;
    while i < |entries|
      invariant 0 <= i <= |entries|
      invariant Mirrors(t, buffer) && Moved(cfg, s, events, t, {Holding})
      invariant t.lock == s.lock.(pushes := entries[i..]) && t.pub == s.pub
      invariant NextNumber(buffer.dir.files) + |buffer.memory| + |entries| - i <= U64
      invariant AfterPushes(buffer.cfg, buffer.codec, buffer.memory, buffer.dir.files, entries[i..])
             == AfterPushes(buffer.cfg, buffer.codec, old(buffer.memory), old(buffer.dir.files), entries)
    {
      ghost var more, u := PushSteps(cfg, t);
      MovedThen(cfg, s, events, t, more, u, {Holding});
      buffer.Push(entries[i]);
      assert entries[i..][1..] == entries[i + 1..];
      events, t, i := events + more, u, i + 1;
    }
  }

  /** The batch in progress goes to the client, up to the first failing message. */
  method SendBatch(batch: seq<LogEntry>, publisher: MqttPublisher, ghost cfg: Config, ghost s: State)
    returns (ok: bool, ghost n: nat, ghost events: seq<Event>)
    requires cfg.Valid() && Sending(s.pub) && s.pub.sent == 0 && batch == Rest(s.pub)[..BatchOf(Rest(s.pub))]
    modifies publisher
    ensures n <= |batch| && (ok <==> n == |batch|) && publisher.handed == old(publisher.handed) + batch[..n]
    ensures Did(cfg, s, events, s.(pub := s.pub.(sent := n)), batch[..n], {Sends})
  {
    hide Did;
    ok, n := publisher.PublishBatch(batch);
    assert batch[..n] == Rest(s.pub)[..n];
    events := HandOffSteps(cfg, s, n);
  }

  lemma MemoryEvents(cfg: Config, s: State)
    requires cfg.Valid() && s.pub.Memory? && s.pub.sent <= BatchOf(s.pub.vec)
    ensures var Memory(vec, sent) := s.pub; var b := BatchOf(vec);
      var ev := if sent == b then BatchDone else Fail;
      && Enabled(cfg, s, ev) && Step(cfg, s, ev).bill.handed == [] && Step(cfg, s, ev).bill.flushLost == []
      && Step(cfg, s, ev).state
         == s.(pub := if sent < b then FailedBatch(vec[..b]) else if vec[b..] == [] then Idle else Memory(vec[b..], 0))
  {
  }

  lemma DiskEvents(cfg: Config, s: State)
    requires cfg.Valid() && s.pub.Disk? && Sending(s.pub)
    ensures var Disk(path, entries, published, sent) := s.pub; var b := BatchOf(entries[published..]);
      var ev := if sent == b then BatchDone else Fail;
      && Enabled(cfg, s, ev) && Step(cfg, s, ev).bill.handed == [] && Step(cfg, s, ev).bill.flushLost == []
      && Step(cfg, s, ev).state
         == s.(pub := if sent < b then (if published == 0 then Idle else FailedTail(path, entries, published))
                      else if published + b == |entries| then Deleting(path, entries)
                      else Disk(path, entries, published + b, 0))
  {
  }

  /** A failed memory batch goes back into the buffer, in order, under the lock. */
  method RequeueBatch(buffer: Buffer, batch: seq<LogEntry>, ghost s: State)
    returns (ghost slices: seq<seq<LogEntry>>, ghost events: seq<Event>, ghost t: State)
    requires Mirrors(s, buffer) && s.lock.Free? && s.pub == FailedBatch(batch)
    requires NextNumber(buffer.dir.files) + |buffer.memory| + |batch| <= U64
    modifies buffer, buffer.dir
    ensures Mirrors(t, buffer) && AtRest(t) && Moved(ConfigOf(buffer), s, events, t, {Holding, Locking})
    ensures |events| >= 2 && events[0] == LockRequeue && events[|events| - 1] == Release
    ensures PushedThrough(buffer.cfg, buffer.codec, old(buffer.memory), old(buffer.dir.files), batch,
                          buffer.memory, buffer.dir.files, slices)
  {
    hide Did, NextNumber, AfterPushes, PushedThrough;
    slices := PushesKeepOrder(buffer.cfg, buffer.codec, buffer.memory, buffer.dir.files, batch);
    ghost var cfg, kinds := ConfigOf(buffer), {Holding, Locking};
    FirstStep(cfg, s, LockRequeue, kinds);
    ghost var u := DoLockRequeue(s).state;
    ghost var more, v := PushAll(buffer, batch, u);
    MovedWiden(cfg, u, more, v, {Holding}, kinds);
    MovedThen(cfg, s, [LockRequeue], u, more, v, kinds);
    MovedStep(cfg, s, [LockRequeue] + more, v, Release, kinds);
    events, t := [LockRequeue] + more + [Release], DoRelease(cfg, v).state;
  }

  lemma MovedWiden(cfg: Config, s: State, events: seq<Event>, t: State, kinds: set<Kind>, more: set<Kind>)
    requires Moved(cfg, s, events, t, kinds) && kinds <= more
    ensures Moved(cfg, s, events, t, more)
  {
    hide Run, IsRun, KindOf;
  }

  lemma DidWiden(cfg: Config, s: State, events: seq<Event>, t: State, sent: seq<LogEntry>, kinds: set<Kind>, more: set<Kind>)
    requires Did(cfg, s, events, t, sent, kinds) && kinds <= more
    ensures Did(cfg, s, events, t, sent, more)
  {
    hide Run, IsRun, KindOf;
  }

  /** The same, after other steps of a longer run. */
  lemma DidThenMoved(cfg: Config, s: State, a: seq<Event>, t: State, sent: seq<LogEntry>,
                     b: seq<Event>, u: State, kinds: set<Kind>)
    requires Did(cfg, s, a, t, sent, kinds) && Moved(cfg, t, b, u, kinds)
    ensures Did(cfg, s, a + b, u, sent, kinds)
  {
    hide Did;
    DidThen(cfg, s, a, t, sent, b, u, [], kinds);
    assert sent + [] == sent;
  }

  lemma ThenMoved(cfg: Config, s: State, a: seq<Event>, t: State, sent: seq<LogEntry>,
                  b: seq<Event>, u: State, few: set<Kind>, kinds: set<Kind>)
    requires Did(cfg, s, a, t, sent, kinds) && Moved(cfg, t, b, u, few) && few <= kinds
    ensures Did(cfg, s, a + b, u, sent, kinds)
  {
    hide Did, Moved;
    MovedWiden(cfg, t, b, u, few, kinds);
    DidThenMoved(cfg, s, a, t, sent, b, u, kinds);
  }

  lemma DidThenStep(cfg: Config, s: State, a: seq<Event>, t: State, sent: seq<LogEntry>, ev: Event, kinds: set<Kind>)
    requires cfg.Valid() && Did(cfg, s, a, t, sent, kinds) && KindOf(ev) in kinds
    requires Enabled(cfg, t, ev) && Step(cfg, t, ev).bill.flushLost == [] && Step(cfg, t, ev).bill.handed == []
    ensures Did(cfg, s, a + [ev], Step(cfg, t, ev).state, sent, kinds)
  {
    hide Did, Step, Enabled, KindOf;
    FirstStep(cfg, t, ev, kinds);
    DidThenMoved(cfg, s, a, t, sent, [ev], Step(cfg, t, ev).state, kinds);
  }

  /** One batch of the drained vector, and what comes of it. */
  method SendMemoryBatch(rest: seq<LogEntry>, publisher: MqttPublisher, ghost cfg: Config, ghost s: State)
    returns (ok: bool, ghost sent: seq<LogEntry>, ghost events: seq<Event>, ghost t: State)
    requires cfg.Valid() && rest != [] && s.pub == Memory(rest, 0)
    modifies publisher
    ensures publisher.handed == old(publisher.handed) + sent
    ensures sent <= rest[..BatchOf(rest)] && (ok <==> sent == rest[..BatchOf(rest)])
    ensures Did(cfg, s, events, t, sent, {Sends})
    ensures var b := BatchOf(rest);
      t == s.(pub := if !ok then FailedBatch(rest[..b]) else if rest[b..] == [] then Idle else Memory(rest[b..], 0))
  {
    hide Did, Step, Enabled;
    ghost var n;
    ok, n, events := SendBatch(rest[..BatchOf(rest)], publisher, cfg, s);
    sent := rest[..BatchOf(rest)][..n];
    ghost var u := s.(pub := Memory(rest, n));
    MemoryEvents(cfg, u);
    ghost var ev := if ok then BatchDone else Fail;
    DidThenStep(cfg, s, events, u, sent, ev, {Sends});
    events, t := events + [ev], Step(cfg, u, ev).state;
  }

  const MEMORY_STEPS: set<Kind> := {Sends, Holding, Locking}

  /** How many of n entries lie in complete batches. */
  function WholeBatches(n: nat): (k: nat)
    ensures k % 200 == 0 && k <= n < k + 200
  {
    n - n % 200
  }

  /** The batch of which the n-th entry failed. */
  function FailedPart(entries: seq<LogEntry>, n: nat): seq<LogEntry>
    requires n < |entries|
  {
    var lo := WholeBatches(n);
    entries[lo..if lo + 200 <= |entries| then lo + 200 else |entries|]
  }

  /** What has become of memory and directory when `sent` of the drained entries went out:
      nothing if all did; otherwise the failed batch, whole, is back behind what memory
      held, and the batches after it are gone. */
  ghost predicate MemoryOutcome(cfg: BufferConfig, codec: Codec, m0: seq<LogEntry>, f0: Files, entries: seq<LogEntry>,
                                sent: seq<LogEntry>, m1: seq<LogEntry>, f1: Files)
  {
    sent <= entries &&
    if sent == entries then m1 == m0 && f1 == f0
    else exists slices :: PushedThrough(cfg, codec, m0, f0, FailedPart(entries, |sent|), m1, f1, slices)
  }

  /** One batch, requeued if it fails; what follows it is then abandoned. */
  method PublishMemoryBatch(buffer: Buffer, rest: seq<LogEntry>, publisher: MqttPublisher, ghost s: State)
    returns (ok: bool, ghost sent: seq<LogEntry>, ghost events: seq<Event>, ghost t: State)
    requires Mirrors(s, buffer) && rest != [] && s.lock.Free? && s.pub == Memory(rest, 0)
    requires NextNumber(buffer.dir.files) + |buffer.memory| + |rest| <= U64
    modifies publisher, buffer, buffer.dir
    ensures publisher.handed == old(publisher.handed) + sent
    ensures Mirrors(t, buffer) && t.lock.Free?
    ensures Did(ConfigOf(buffer), s, events, t, sent, MEMORY_STEPS)
    ensures sent <= rest[..BatchOf(rest)] && (ok <==> sent == rest[..BatchOf(rest)])
    ensures ok ==> buffer.memory == old(buffer.memory) && buffer.dir.files == old(buffer.dir.files)
    ensures !ok ==> exists slices ::
      PushedThrough(buffer.cfg, buffer.codec, old(buffer.memory), old(buffer.dir.files), rest[..BatchOf(rest)],
                    buffer.memory, buffer.dir.files, slices)
    ensures t.pub == if !ok || |rest| == BatchOf(rest) then Idle else Memory(rest[BatchOf(rest)..], 0)
  {
    hide Did, Moved, NextNumber, IsChunkFile, Only, PushedThrough;
    ghost var cfg := ConfigOf(buffer);
    ok, sent, events, t := SendMemoryBatch(rest, publisher, cfg, s);
    DidWiden(cfg, s, events, t, sent, {Sends}, MEMORY_STEPS);
    if !ok {
      ghost var slices, back, v := RequeueBatch(buffer, rest[..BatchOf(rest)], t);
      ThenMoved(cfg, s, events, t, sent, back, v, {Holding, Locking}, MEMORY_STEPS);
      events, t := events + back, v;
    }
  }

  /** The drained vector, batch by batch; after a failed batch the rest is abandoned. */
  method PublishMemory(buffer: Buffer, entries: seq<LogEntry>, publisher: MqttPublisher, ghost s: State)
    returns (ghost sent: seq<LogEntry>, ghost events: seq<Event>, ghost t: State)
    requires Mirrors(s, buffer) && entries != [] && s.lock.Free? && s.pub == Memory(entries, 0)
    requires NextNumber(buffer.dir.files) + |buffer.memory| + |entries| <= U64
    modifies publisher, buffer, buffer.dir
    ensures publisher.handed == old(publisher.handed) + sent
    ensures MemoryOutcome(buffer.cfg, buffer.codec, old(buffer.memory), old(buffer.dir.files), entries, sent,
                          buffer.memory, buffer.dir.files)
    ensures Mirrors(t, buffer) && AtRest(t)
    ensures Did(ConfigOf(buffer), s, events, t, sent, MEMORY_STEPS)
  {
    hide Did, NextNumber, IsChunkFile, PushedThrough, FailedPart;
    ghost var cfg := ConfigOf(buffer);
    DidNothing(cfg, s, MEMORY_STEPS);
    sent, events, t := [], [], s;
    var rest := entries;
    while rest != []
      invariant Mirrors(t, buffer) && t.lock.Free?
      invariant t.pub == if rest == [] then Idle else Memory(rest, 0)
      invariant publisher.handed == old(publisher.handed) + sent
      invariant |sent| <= |entries| && sent == entries[..|sent|] && rest == entries[|sent|..]
      invariant rest != [] ==> |sent| % 200 == 0
      invariant buffer.memory == old(buffer.memory) && buffer.dir.files == old(buffer.dir.files)
      invariant Did(cfg, s, events, t, sent, MEMORY_STEPS)
      decreases |rest|
    {
      var ok;
      ghost var more, steps, u;
      ok, more, steps, u := PublishMemoryBatch(buffer, rest, publisher, t);
      DidThen(cfg, s, events, t, sent, steps, u, more, MEMORY_STEPS);
      ConcatAssoc(old(publisher.handed), sent, more);
      NextBatch(entries, |sent|, more);
      events, sent, t := events + steps, sent + more, u;
      if !ok {
        return;
      }
      rest := rest[BatchOf(rest)..];
    }
  }

  /** Where the next batch of a list lies, and which batch failed if it did. */
  lemma NextBatch(entries: seq<LogEntry>, k: nat, more: seq<LogEntry>)
    requires k < |entries| && k % 200 == 0 && more <= entries[k..][..BatchOf(entries[k..])]
    ensures var b := BatchOf(entries[k..]); var n := |more|;
      && entries[..k] + more == entries[..k + n]
      && (more == entries[k..][..b] <==> n == b)
      && (n < b ==> FailedPart(entries, k + n) == entries[k..][..b])
      && (n == b ==> entries[k..][b..] == entries[k + n..] && (k + n < |entries| ==> (k + n) % 200 == 0))
  {
    var b, n := BatchOf(entries[k..]), |more|;
    assert more == entries[k..][..b][..n] == entries[k..k + n];
    if n < b {
      Within200(k, n);
    }
  }

  lemma Within200(k: nat, n: nat)
    requires k % 200 == 0 && n < 200
    ensures (k + n) % 200 == n
  {
  }

  /** One batch of a chunk, and what comes of it. */
  method SendDiskBatch(path: string, entries: seq<LogEntry>, published: nat, publisher: MqttPublisher,
                       ghost cfg: Config, ghost s: State)
    returns (ok: bool, ghost n: nat, ghost events: seq<Event>, ghost t: State)
    requires cfg.Valid() && published < |entries| && s.pub == Disk(path, entries, published, 0)
    modifies publisher
    ensures var b := BatchOf(entries[published..]); n <= b && (ok <==> n == b)
    ensures publisher.handed == old(publisher.handed) + entries[published..published + n]
    ensures Did(cfg, s, events, t, entries[published..published + n], {Sends})
    ensures var b := BatchOf(entries[published..]);
      t == s.(pub := if !ok then (if published == 0 then Idle else FailedTail(path, entries, published))
                     else if published + b == |entries| then Deleting(path, entries)
                     else Disk(path, entries, published + b, 0))
  {
    hide Did, Step, Enabled;
    var rest := entries[published..];
    ok, n, events := SendBatch(rest[..BatchOf(rest)], publisher, cfg, s);
    assert rest[..BatchOf(rest)][..n] == entries[published..published + n];
    ghost var u := s.(pub := Disk(path, entries, published, n));
    DiskEvents(cfg, u);
    ghost var ev := if ok then BatchDone else Fail;
    DidThenStep(cfg, s, events, u, entries[published..published + n], ev, {Sends});
    events, t := events + [ev], Step(cfg, u, ev).state;
  }

  /** The batches of a chunk up to the first failing one; counts whole batches. */
  method SendChunk(path: string, entries: seq<LogEntry>, publisher: MqttPublisher, ghost cfg: Config, ghost s: State)
    returns (published: nat, ghost sent: seq<LogEntry>, ghost events: seq<Event>, ghost t: State)
    requires cfg.Valid() && s.pub == if entries == [] then Deleting(path, entries) else Disk(path, entries, 0, 0)
    modifies publisher
    ensures publisher.handed == old(publisher.handed) + sent && published <= |entries|
    ensures t == s.(pub := if published == |entries| then Deleting(path, entries)
                           else if published == 0 then Idle else FailedTail(path, entries, published))
    ensures sent <= entries && (published == |entries| <==> sent == entries)
    ensures published < |entries| ==> published == WholeBatches(|sent|)
    ensures Did(cfg, s, events, t, sent, {Sends})
  {
    hide Did;
    DidNothing(cfg, s, {Sends});
    published, sent, events, t := 0, [], [], s;
    while published < |entries|
      invariant 0 <= published <= |entries| && sent == entries[..published]
      invariant published < |entries| ==> published % 200 == 0
      invariant t == s.(pub := if published == |entries| then Deleting(path, entries) else Disk(path, entries, published, 0))
      invariant publisher.handed == old(publisher.handed) + sent
      invariant Did(cfg, s, events, t, sent, {Sends})
    {
      var ok;
      ghost var n, sends, u;
      ok, n, sends, u := SendDiskBatch(path, entries, published, publisher, cfg, t);
      DidThen(cfg, s, events, t, sent, sends, u, entries[published..published + n], {Sends});
      PrefixGrows(entries, published, n);
      ConcatAssoc(old(publisher.handed), sent, entries[published..published + n]);
      events, sent, t := events + sends, sent + entries[published..published + n], u;
      if !ok {
        Within200(published, n);
        return;
      }
      published := published + BatchOf(entries[published..]);
    }
  }

  lemma PrefixGrows<T>(s: seq<T>, i: nat, n: nat)
    requires i + n <= |s|
    ensures s[..i] + s[i..i + n] == s[..i + n]
  {
  }

  /** The entries from `published` on, last first. */
  ghost predicate BackwardTail(entries: seq<LogEntry>, published: nat, tail: seq<LogEntry>)
    requires published <= |entries|
  {
    |tail| == |entries| - published && forall i :: 0 <= i < |tail| ==> tail[i] == entries[|entries| - 1 - i]
  }

  /** That tail has been pushed, and the chunk's file is gone. */
  ghost predicate TailPushed(cfg: BufferConfig, codec: Codec, m0: seq<LogEntry>, f0: Files, path: string, entries: seq<LogEntry>,
                             published: nat, m1: seq<LogEntry>, f1: Files, tail: seq<LogEntry>, slices: seq<seq<LogEntry>>)
    requires published <= |entries|
  {
    && BackwardTail(entries, published, tail)
    && PushedThrough(cfg, codec, m0, f0, tail, m1, WrittenAll(f0, cfg.maxBytes, codec, slices), slices)
    && f1 == WrittenAll(f0, cfg.maxBytes, codec, slices) - {path}
  }

  lemma PushTail(cfg: BufferConfig, codec: Codec, m0: seq<LogEntry>, f0: Files, path: string, entries: seq<LogEntry>, published: nat)
    returns (slices: seq<seq<LogEntry>>)
    requires cfg.Valid() && |m0| <= cfg.memoryMax && published <= |entries|
    ensures var tail := Reverse(entries[published..]); var (m, f) := AfterPushes(cfg, codec, m0, f0, tail);
      && TailPushed(cfg, codec, m0, f0, path, entries, published, m, f - {path}, tail, slices)
      && (|m0| + (|entries| - published) <= cfg.memoryMax ==>
            && |m| == |m0| + (|entries| - published) && m[..|m0|] == m0 && f == f0
            && forall j :: |m0| <= j < |m| ==> m[j] == entries[|entries| - 1 - (j - |m0|)])
  {
    hide AfterPushes, WrittenAll, Reverse, Flatten, PiecesOf;
    var tail := Reverse(entries[published..]);
    assert BackwardTail(entries, published, tail);
    slices := PushesKeepOrder(cfg, codec, m0, f0, tail);
  }

  /** The unpublished tail goes back in reverse order, and the chunk is deleted, all
      under the lock. */
  method RequeueTail(buffer: Buffer, path: string, entries: seq<LogEntry>, published: nat, ghost s: State)
    returns (ghost slices: seq<seq<LogEntry>>, ghost events: seq<Event>, ghost t: State)
    requires Mirrors(s, buffer) && 0 < published < |entries|
    requires s.lock.Free? && s.pub == FailedTail(path, entries, published)
    requires NextNumber(buffer.dir.files) + |buffer.memory| + |entries| <= U64
    modifies buffer, buffer.dir
    ensures Mirrors(t, buffer) && AtRest(t) && path !in buffer.dir.files
    ensures Moved(ConfigOf(buffer), s, events, t, {Holding, Locking})
    ensures |events| >= 2 && events[0] == LockTail && events[|events| - 1] == Release
    ensures exists tail ::
      TailPushed(buffer.cfg, buffer.codec, old(buffer.memory), old(buffer.dir.files), path, entries, published,
                 buffer.memory, buffer.dir.files, tail, slices)
    ensures |old(buffer.memory)| + (|entries| - published) <= buffer.cfg.memoryMax ==>
      && |buffer.memory| == |old(buffer.memory)| + (|entries| - published)
      && buffer.memory[..|old(buffer.memory)|] == old(buffer.memory)
      && (forall j :: |old(buffer.memory)| <= j < |buffer.memory| ==>
            buffer.memory[j] == entries[|entries| - 1 - (j - |old(buffer.memory)|)])
      && buffer.dir.files == old(buffer.dir.files) - {path}
  {
    hide Did, NextNumber, AfterPushes, WrittenAll, TailPushed, Moved, IsChunkFile;
    ghost var cfg := ConfigOf(buffer);
    var tail := Reverse(entries[published..]);
    slices := PushTail(buffer.cfg, buffer.codec, buffer.memory, buffer.dir.files, path, entries, published);
    ghost var u := s.(lock := Held(Tail(path, entries, published), [], Ready, tail), pub := Tailing);
    ghost var more, v := PushAll(buffer, tail, u);
    var deleted := buffer.dir.Delete(path);
    events, t := [LockTail] + more + [Release], v.(files := v.files - {path}, lock := Free, pub := Idle);
    TailRun(cfg, s, path, entries, published, u, more, v);
  }

  lemma TailRun(cfg: Config, s: State, path: string, entries: seq<LogEntry>, published: nat, u: State, more: seq<Event>, v: State)
    requires cfg.Valid() && 0 < published < |entries| && s.lock.Free? && s.pub == FailedTail(path, entries, published)
    requires u == s.(lock := Held(Tail(path, entries, published), [], Ready, Reverse(entries[published..])), pub := Tailing)
    requires Moved(cfg, u, more, v, {Holding}) && v.lock == u.lock.(pushes := []) && v.pub == u.pub
    ensures Moved(cfg, s, [LockTail] + more + [Release], v.(files := v.files - {path}, lock := Free, pub := Idle), {Holding, Locking})
  {
    hide Moved, Reverse, EntriesAt;
    var kinds := {Holding, Locking};
    FirstStep(cfg, s, LockTail, kinds);
    MovedWiden(cfg, u, more, v, {Holding}, kinds);
    MovedThen(cfg, s, [LockTail], u, more, v, kinds);
    MovedStep(cfg, s, [LockTail] + more, v, Release, kinds);
  }

  /** Fully published and unreadable chunks are both removed, by path, without the lock. */
  method DeletePublished(buffer: Buffer, path: string, ghost s: State) returns (ghost events: seq<Event>, ghost t: State)
    requires Mirrors(s, buffer) && s.lock.Free? && CanDelete(s) && s.pub.path == path
    modifies buffer.dir
    ensures Mirrors(t, buffer) && AtRest(t) && buffer.dir.files == old(buffer.dir.files) - {path} && events == [Delete]
    ensures Moved(ConfigOf(buffer), s, events, t, {Deletion})
  {
    hide Did, NextNumber;
    FirstStep(ConfigOf(buffer), s, Delete, {Deletion});
    var deleted := buffer.dir.Delete(path);
    events, t := [Delete], DoDelete(ConfigOf(buffer), s).state;
  }

  const CHUNK_STEPS: set<Kind> := {Loading, Sends, Holding, Locking, Deletion}

  /** What has become of memory and directory when `sent` of a chunk's entries went out: the
      chunk is gone if all did, and nothing has changed if its first batch failed; otherwise
      what follows the last complete batch is back behind what memory held, last entry
      first, and the chunk is gone. */
  ghost predicate ChunkOutcome(cfg: BufferConfig, codec: Codec, m0: seq<LogEntry>, f0: Files, path: string,
                               entries: seq<LogEntry>, sent: seq<LogEntry>, m1: seq<LogEntry>, f1: Files)
  {
    sent <= entries &&
    if sent == entries then m1 == m0 && f1 == f0 - {path}
    else if |sent| < 200 then m1 == m0 && f1 == f0
    else
      exists tail, slices ::
        TailPushed(cfg, codec, m0, f0, path, entries, WholeBatches(|sent|), m1, f1, tail, slices)
  }

  /** A chunk that was read, batch by batch; deleted when all of it went out, its tail
      requeued in reverse when part of it did, left alone when none did. */
  method PublishEntries(buffer: Buffer, path: string, entries: seq<LogEntry>, publisher: MqttPublisher, ghost s: State)
    returns (ghost sent: seq<LogEntry>, ghost events: seq<Event>, ghost t: State)
    requires Mirrors(s, buffer) && s.lock.Free?
    requires s.pub == if entries == [] then Deleting(path, entries) else Disk(path, entries, 0, 0)
    requires NextNumber(buffer.dir.files) + |buffer.memory| + |entries| <= U64
    modifies publisher, buffer, buffer.dir
    ensures publisher.handed == old(publisher.handed) + sent
    ensures ChunkOutcome(buffer.cfg, buffer.codec, old(buffer.memory), old(buffer.dir.files), path, entries, sent,
                         buffer.memory, buffer.dir.files)
    ensures Mirrors(t, buffer) && AtRest(t)
    ensures Did(ConfigOf(buffer), s, events, t, sent, ENTRY_STEPS)
  {
    hide Did, Moved, NextNumber, Step, Enabled, IsChunkFile, Only, TailPushed, WrittenAll, ChunkOutcome;
    ghost var cfg, m0, f0 := ConfigOf(buffer), buffer.memory, buffer.dir.files;
    var published;
    published, sent, events, t := SendChunk(path, entries, publisher, cfg, s);
    DidWiden(cfg, s, events, t, sent, {Sends}, ENTRY_STEPS);
    if published == |entries| {
      ghost var last, w := DeletePublished(buffer, path, t);
      ThenMoved(cfg, s, events, t, sent, last, w, {Deletion}, ENTRY_STEPS);
      events, t := events + last, w;
      AllOut(buffer.cfg, buffer.codec, m0, f0, path, entries);
    } else if published > 0 {
      ghost var slices, more, v := RequeueTail(buffer, path, entries, published, t);
      ThenMoved(cfg, s, events, t, sent, more, v, {Holding, Locking}, ENTRY_STEPS);
      events, t := events + more, v;
      PartOut(buffer.cfg, buffer.codec, m0, f0, path, entries, sent, buffer.memory, buffer.dir.files, slices);
    } else {
      NoneOut(buffer.cfg, buffer.codec, m0, f0, path, entries, sent);
    }
  }

  lemma AllOut(cfg: BufferConfig, codec: Codec, m: seq<LogEntry>, f: Files, path: string, entries: seq<LogEntry>)
    ensures ChunkOutcome(cfg, codec, m, f, path, entries, entries, m, f - {path})
  {
  }

  lemma NoneOut(cfg: BufferConfig, codec: Codec, m: seq<LogEntry>, f: Files, path: string, entries: seq<LogEntry>, sent: seq<LogEntry>)
    requires sent <= entries && sent != entries && WholeBatches(|sent|) == 0
    ensures ChunkOutcome(cfg, codec, m, f, path, entries, sent, m, f)
  {
  }

  lemma PartOut(cfg: BufferConfig, codec: Codec, m0: seq<LogEntry>, f0: Files, path: string, entries: seq<LogEntry>,
                sent: seq<LogEntry>, m1: seq<LogEntry>, f1: Files, slices: seq<seq<LogEntry>>)
    requires sent <= entries && sent != entries && WholeBatches(|sent|) > 0
    requires exists tail :: TailPushed(cfg, codec, m0, f0, path, entries, WholeBatches(|sent|), m1, f1, tail, slices)
    ensures ChunkOutcome(cfg, codec, m0, f0, path, entries, sent, m1, f1)
  {
    hide TailPushed;
    assert |sent| >= 200;
  }

  const ENTRY_STEPS: set<Kind> := {Sends, Holding, Locking, Deletion}

  /** The same for a chunk yet to be read: one that is missing or undecodable is deleted. */
  ghost predicate ReadOutcome(cfg: BufferConfig, codec: Codec, m0: seq<LogEntry>, f0: Files, path: string,
                              sent: seq<LogEntry>, m1: seq<LogEntry>, f1: Files)
  {
    if path in f0 && codec.decode(f0[path]).Some? then
      ChunkOutcome(cfg, codec, m0, f0, path, codec.decode(f0[path]).value, sent, m1, f1)
    else sent == [] && m1 == m0 && f1 == f0 - {path}
  }

  /** Read, then publish; a chunk that cannot be read is deleted as corrupt. */
  method PublishChunk(buffer: Buffer, path: string, publisher: MqttPublisher, ghost s: State)
    returns (ghost sent: seq<LogEntry>, ghost events: seq<Event>, ghost t: State)
    requires Mirrors(s, buffer) && s.lock.Free? && s.pub == Picked(path)
    requires path in buffer.dir.files && buffer.codec.decode(buffer.dir.files[path]).Some? ==>
      NextNumber(buffer.dir.files) + |buffer.memory| + |buffer.codec.decode(buffer.dir.files[path]).value| <= U64
    modifies publisher, buffer, buffer.dir
    ensures publisher.handed == old(publisher.handed) + sent
    ensures Mirrors(t, buffer) && AtRest(t)
    ensures events != [] && events[0] == Read && Only(events[1..], ENTRY_STEPS)
    ensures Did(ConfigOf(buffer), s, events, t, sent, CHUNK_STEPS)
    ensures ReadOutcome(buffer.cfg, buffer.codec, old(buffer.memory), old(buffer.dir.files), path, sent,
                        buffer.memory, buffer.dir.files)
  {
    hide Did, NextNumber, Step, Enabled, IsChunkFile, Only, ChunkOutcome;
    ghost var cfg := ConfigOf(buffer);
    var content := buffer.ReadChunk(path);
    ReadEvent(cfg, s);
    FirstStep(cfg, s, Read, CHUNK_STEPS);
    ghost var more;
    ghost var u := Step(cfg, s, Read).state;
    if content.Some? {
      sent, more, t := PublishEntries(buffer, path, content.value, publisher, u);
    } else {
      more, t := DeletePublished(buffer, path, u);
      MovedWiden(cfg, u, more, t, {Deletion}, ENTRY_STEPS);
      sent := [];
      assert publisher.handed + sent == publisher.handed;
      assert Did(cfg, u, more, t, sent, ENTRY_STEPS);
    }
    ReadThen(cfg, s, u, more, t, sent);
    events := [Read] + more;
  }

  lemma ReadThen(cfg: Config, s: State, u: State, more: seq<Event>, t: State, sent: seq<LogEntry>)
    requires Moved(cfg, s, [Read], u, CHUNK_STEPS) && Did(cfg, u, more, t, sent, ENTRY_STEPS)
    ensures Did(cfg, s, [Read] + more, t, sent, CHUNK_STEPS) && Only(([Read] + more)[1..], ENTRY_STEPS)
  {
    hide IsRun, Run, KindOf;
    DidWiden(cfg, u, more, t, sent, ENTRY_STEPS, CHUNK_STEPS);
    DidThen(cfg, s, [Read], u, [], more, t, sent, CHUNK_STEPS);
    assert [] + sent == sent && ([Read] + more)[1..] == more;
  }

  lemma ReadEvent(cfg: Config, s: State)
    requires cfg.Valid() && s.pub.Picked?
    ensures Enabled(cfg, s, Read) && Step(cfg, s, Read).bill.flushLost == [] && Step(cfg, s, Read).bill.handed == []
    ensures var path := s.pub.path;
      var content := if path in s.files then cfg.codec.decode(s.files[path]) else None;
      var t := Step(cfg, s, Read).state;
      && t == s.(pub := t.pub, stale := t.stale)
      && t.pub == match content
                  case None => Corrupt(path)
                  case Some(es) => if es == [] then Deleting(path, []) else Disk(path, es, 0, 0)
  {
  }

  /** What a connected tick does, by where its entries come from: it drains memory first;
      only if that was empty does it pick a chunk, the newest, and read it. */
  ghost predicate TickShape(events: seq<Event>, memory: seq<LogEntry>, files: Files)
  {
    && events != [] && events[0] == Drain
    && if memory != [] then Only(events[1..], MEMORY_STEPS)
       else |events| > 1 && events[1] == PickChunk
            && if ChunkFiles(files) == {} then events[2..] == []
               else |events| > 2 && events[2] == Read && Only(events[3..], ENTRY_STEPS)
  }

  const TICK_STEPS: set<Kind> := {Draining, Picking, Loading, Sends, Holding, Locking, Deletion}

  lemma DrainEvent(cfg: Config, s: State)
    requires cfg.Valid() && AtRest(s)
    ensures Enabled(cfg, s, Drain) && Step(cfg, s, Drain).bill.flushLost == [] && Step(cfg, s, Drain).bill.handed == []
    ensures Step(cfg, s, Drain).state
         == if s.memory == [] then s.(pub := Looking) else s.(pub := Memory(s.memory, 0), memory := [])
  {
  }

  lemma PickEvent(cfg: Config, s: State)
    requires cfg.Valid() && s.lock.Free? && s.pub.Looking? && (!s.mayHaveChunks ==> ChunkFiles(s.files) == {})
    ensures Enabled(cfg, s, PickChunk)
    ensures Step(cfg, s, PickChunk).bill.flushLost == [] && Step(cfg, s, PickChunk).bill.handed == []
    ensures var next := NewestChunk(s.files);
      Step(cfg, s, PickChunk).state
      == s.(pub := if next.Some? then Picked(next.value) else Idle, mayHaveChunks := next.Some?, stale := false)
  {
  }

  lemma MemoryShape(more: seq<Event>, memory: seq<LogEntry>, files: Files)
    requires memory != [] && Only(more, MEMORY_STEPS)
    ensures TickShape([Drain] + more, memory, files)
  {
    assert ([Drain] + more)[1..] == more;
  }

  lemma DiskShape(more: seq<Event>, files: Files)
    ensures ChunkFiles(files) == {} ==> TickShape([Drain] + [PickChunk], [], files)
    ensures ChunkFiles(files) != {} && more != [] && more[0] == Read && Only(more[1..], ENTRY_STEPS) ==>
      TickShape([Drain] + [PickChunk] + more, [], files)
  {
    var all := [Drain] + [PickChunk] + more;
    if more != [] {
      assert all[3..] == more[1..];
    }
  }

  /** One uninterrupted tick. Offline it does nothing. Connected, it is a run of the
      machine from rest to rest, made of the publisher's and the lock holder's own steps
      in the shape above, handing the client exactly what that run hands off; no flush
      fails on the way. (Chunk numbers stay within u64.) */
  method Tick(buffer: Buffer, publisher: MqttPublisher, ghost s: State)
    returns (connected: bool, ghost sent: seq<LogEntry>, ghost events: seq<Event>, ghost t: State)
    requires Mirrors(s, buffer) && AtRest(s)
    requires NextNumber(buffer.dir.files) + |buffer.memory| <= U64
    requires forall path :: path in buffer.dir.files && buffer.codec.decode(buffer.dir.files[path]).Some? ==>
      NextNumber(buffer.dir.files) + |buffer.codec.decode(buffer.dir.files[path]).value| <= U64
    modifies publisher, buffer, buffer.dir
    ensures publisher.handed == old(publisher.handed) + sent
    ensures Mirrors(t, buffer) && AtRest(t)
    ensures Did(ConfigOf(buffer), s, events, t, sent, TICK_STEPS)
    ensures !connected ==> events == []
    ensures connected ==> TickShape(events, s.memory, s.files)
    ensures connected && s.memory != [] ==>
      MemoryOutcome(buffer.cfg, buffer.codec, [], s.files, s.memory, sent, buffer.memory, buffer.dir.files)
    ensures connected && s.memory == [] ==>
      var next := NewestChunk(s.files);
      if next.None? then sent == [] && buffer.memory == [] && buffer.dir.files == s.files
      else ReadOutcome(buffer.cfg, buffer.codec, [], s.files, next.value, sent, buffer.memory, buffer.dir.files)
  {
    hide Did, NextNumber, Step, Enabled, TickShape, Only, IsChunkFile, MemoryOutcome, ReadOutcome;
    ghost var cfg := ConfigOf(buffer);
    DidNothing(cfg, s, TICK_STEPS);
    sent, events, t := [], [], s;
    connected := publisher.IsConnected();
    if !connected {
      return;
    }
    DrainEvent(cfg, s);
    FirstStep(cfg, s, Drain, TICK_STEPS);
    events, t := [Drain], Step(cfg, s, Drain).state;
    var entries := [];
    if |buffer.memory| > 0 {
      entries := buffer.DrainMemory();
    }
    ghost var more, u;
    if entries != [] {
      sent, more, u := PublishMemory(buffer, entries, publisher, t);
      Compose(cfg, s, events, t, more, u, sent, MEMORY_STEPS);
      MemoryShape(more, s.memory, s.files);
      events, t := events + more, u;
      return;
    }
    PickEvent(cfg, t);
    MovedStep(cfg, s, events, t, PickChunk, TICK_STEPS);
    events, t := events + [PickChunk], Step(cfg, t, PickChunk).state;
    DiskShape([], s.files);
    var next := buffer.NextDiskChunk();
    if next.Some? {
      sent, more, u := PublishChunk(buffer, next.value, publisher, t);
      Compose(cfg, s, events, t, more, u, sent, CHUNK_STEPS);
      DiskShape(more, s.files);
      events, t := events + more, u;
    }
  }

  lemma Compose(cfg: Config, s: State, a: seq<Event>, t: State, b: seq<Event>, u: State, sent: seq<LogEntry>, kinds: set<Kind>)
    requires Moved(cfg, s, a, t, TICK_STEPS) && Did(cfg, t, b, u, sent, kinds) && kinds <= TICK_STEPS
    ensures Did(cfg, s, a + b, u, sent, TICK_STEPS) && Only(b, kinds)
  {
    hide Run, IsRun, KindOf;
    DidWiden(cfg, t, b, u, sent, kinds, TICK_STEPS);
    DidThen(cfg, s, a, t, [], b, u, sent, TICK_STEPS);
    assert [] + sent == sent;
  }

  // ---- the ledger of a tick ---------------------------------------------------------------------------

  lemma {:induction false} OwnStepsBill(cfg: Config, s: State, events: seq<Event>, kinds: set<Kind>)
    requires cfg.Valid() && IsRun(cfg, s, events) && Only(events, kinds) && Outside !in kinds
    ensures var bill := Run(cfg, s, events).bill; bill.accepted == [] && bill.cancelled == [] && bill.lostAtExit == []
    decreases |events|
  {
    if events != [] {
      OwnStepBill(cfg, s, events[0]);
      hide Step, Enabled, KindOf;
      assert events[0] in events;
      OwnStepsBill(cfg, Step(cfg, s, events[0]).state, events[1..], kinds);
    }
  }

  lemma OwnStepBill(cfg: Config, s: State, ev: Event)
    requires cfg.Valid() && Enabled(cfg, s, ev)
    ensures KindOf(ev) != Outside ==>
      var bill := Step(cfg, s, ev).bill; bill.accepted == [] && bill.cancelled == [] && bill.lostAtExit == []
  {
    hide ChunkName, IsChunkFile, TmpName, SeqNumber, Hits, TotalBytes;
  }

  /** What a tick does to the entries the daemon holds: each is still held, settled after
      hand-off, evicted by a requeueing flush, abandoned behind a failed batch, or gone
      with a requeued chunk that the tail's deletion took; nothing else can happen to it,
      and what was handed off is settled or kept to be sent again. */
  lemma TickLedger(cfg: Config, base: Files, s: State, events: seq<Event>, t: State, sent: seq<LogEntry>, x: LogEntry)
    requires Did(cfg, s, events, t, sent, TICK_STEPS) && Inv(cfg, base, s) && AtRest(s) && AtRest(t)
    ensures var bill := Run(cfg, s, events).bill;
      && Count(s.memory, x) + OnDisk(cfg.codec, s.files, x) + Count(bill.surplus, x)
         == Count(t.memory, x) + OnDisk(cfg.codec, t.files, x) + Count(bill.settled, x)
          + Count(bill.evicted, x) + Count(bill.abandoned, x) + Count(bill.clobbered, x)
      && Count(sent, x) == Count(bill.settled, x) + Count(bill.resent, x)
  {
    OwnStepsBill(cfg, s, events, TICK_STEPS);
    RunKeeps(cfg, base, s, events, x);
    hide Run, IsRun, OnDisk, Inv;
  }
}
