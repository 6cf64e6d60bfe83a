/** Crash atomicity of the spool: chunks are whole wherever the process stops
    (src/buffer.rs:100-106, 157-191; src/orchestrator.rs:214-220). */
module LogCrash {
  import opened Prelude
  import opened LogEntries
  import opened SpoolNames
  import opened Spool
  import opened Orchestrator
  import opened LogLedger
  import opened LogRuns

  /** At the end of every run, so at every point where the process may stop, each
      chunk file the buffer wrote decodes to the complete slice it was given, any
      other chunk is one of the first start with its bytes unchanged, and
      temporary files, complete or not, are not chunks. */
  lemma ChunksAlwaysWhole(cfg: Config, s: State, events: seq<Event>)
    requires cfg.Valid() && Initial(s) && IsRun(cfg, s, events)
    ensures var end := Run(cfg, s, events).state;
      forall c :: c in ChunkFiles(end.files) ==>
        if c in end.origin then cfg.codec.decode(end.files[c]) == Some(end.origin[c])
        else c in s.files && end.files[c] == s.files[c]
    ensures forall n :: TmpName(n) !in ChunkFiles(Run(cfg, s, events).state.files)
  {
    InitialInv(cfg, s);
    var x := LogEntry("", None, None, None, "", map[]);
    RunKeeps(cfg, s.files, s, events, x);
    forall n ensures TmpName(n) !in ChunkFiles(Run(cfg, s, events).state.files) {
      TmpNameIgnored(n);
    }
    hide IsRun, Run, TmpName, IsChunkFile;
  }

  lemma CorruptDeleteSpares(cfg: Config, base: Files, s: State, c: string)
    requires cfg.Valid() && Inv(cfg, base, s) && !s.stale
    requires s.pub.Corrupt? && c in s.origin && c in ChunkFiles(s.files)
    ensures c in DoDelete(cfg, s).state.files
  {
    hide IsChunkFile, LockInv;
  }

  /** The corrupt-chunk branch of `publish_tick` removes no chunk that this buffer
      wrote, unless the chunk it picked was evicted between the pick and this point;
      what happened before that does not matter. */
  lemma CorruptBranchSparesOwnChunks(cfg: Config, s: State, events: seq<Event>, c: string)
    requires cfg.Valid() && Initial(s) && IsRun(cfg, s, events)
    requires var end := Run(cfg, s, events).state;
      end.pub.Corrupt? && !end.stale && c in end.origin && c in ChunkFiles(end.files)
    ensures var end := Run(cfg, s, events).state; c in DoDelete(cfg, end).state.files
  {
    hide Inv, IsRun, Run, DoDelete, ChunkFiles;
    InitialInv(cfg, s);
    var x := LogEntry("", None, None, None, "", map[]);
    RunKeeps(cfg, s.files, s, events, x);
    CorruptDeleteSpares(cfg, s.files, Run(cfg, s, events).state, c);
  }
}
