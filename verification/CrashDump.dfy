/** Crash-dump delivery (src/sources/crashdump.rs:63-199, 343-383): publish, record,
    persist, delete, across restarts and crashes.

    Everything the task does to the outside world, and every record it reads to upload,
    is an effect on one trace. A
    crash at any point leaves a prefix of it, so a law about every position of the
    trace is a law about every crash point. */
module CrashDump {
  import opened Prelude
  import opened CoreDump
  import Fnv

  /** STATE_RETENTION_SECS. */
  const STATE_RETENTION_SECS: nat := 7 * 24 * 60 * 60

  datatype Delivered = Delivered(id: nat, ts: nat)

  datatype Config = Config(kinds: seq<seq<Byte>>, deleteAfterCapture: bool, maxBytes: nat, chunkBytes: nat,
                           buildId: Option<string>)
  {
    predicate Valid() { kinds != [] && maxBytes > 0 && chunkBytes > 0 }
  }

  /** A directory entry as the scan meets it: its name if it is UTF-8, its metadata
      if readable (file or not, modification time), its bytes if readable; and the time at
      which its delivery, if it comes to that, is recorded. */
  datatype Entry = Entry(path: string, fname: Option<seq<Byte>>, meta: Option<Meta>, data: Option<seq<Byte>>, time: nat)
  datatype Meta = Meta(isFile: bool, mtime: nat)

  datatype ScanOutcome = Idle | RetrySoon

  datatype Effect =
    | Started(now: nat)                 // load the state file and prune it
    | ReadRecord(path: string, id: nat, content: seq<Byte>)  // a record read for upload, capped
    | Published(m: Message)             // one message accepted by the client
    | Refused(m: Message)               // one message not accepted
    | Saved(records: seq<Delivered>)    // the state file atomically replaced
    | SaveFailed
    | Removed(path: string, id: nat)    // the file of the record with this id deleted
    | RemoveFailed(path: string, id: nat)

  // ---- what the trace implies about the state file ------------------------------------------

  predicate Kept(r: Delivered, now: nat)
  {
    r.ts >= if now > STATE_RETENTION_SECS then now - STATE_RETENTION_SECS else 0
  }

  /** `State::prune`. */
  function Prune(rs: seq<Delivered>, now: nat): (kept: seq<Delivered>)
    ensures forall r :: r in kept <==> r in rs && Kept(r, now)
  {
    if rs == [] then []
    else (if Kept(rs[0], now) then [rs[0]] else []) + Prune(rs[1..], now)
  }

  lemma {:induction false} PruneAppend(rs: seq<Delivered>, r: Delivered, now: nat)
    ensures Prune(rs + [r], now) == Prune(rs, now) + (if Kept(r, now) then [r] else [])
  {
    hide Kept;
    if rs == [] {
      assert rs + [r] == [r] && [r][1..] == [];
    } else {
      assert (rs + [r])[1..] == rs[1..] + [r];
      PruneAppend(rs[1..], r, now);
    }
  }

  /** The state file's contents: empty until it is first saved. */
  function OnFile(trace: seq<Effect>): seq<Delivered>
  {
    if trace == [] then []
    else match trace[|trace| - 1]
      case Saved(rs) => rs
      case _ => OnFile(trace[..|trace| - 1])
  }

  /** Deliveries the running task is bound to remember: what it loaded and did not
      prune, and what it has saved since. */
  function Remembered(trace: seq<Effect>): seq<Delivered>
  {
    if trace == [] then []
    else match trace[|trace| - 1]
      case Saved(rs) => rs
      case Started(now) => Prune(OnFile(trace[..|trace| - 1]), now)
      case _ => Remembered(trace[..|trace| - 1])
  }

  function Ids(rs: seq<Delivered>): set<nat> { set r | r in rs :: r.id }

  function Sends(ms: seq<Message>): (r: seq<Effect>)
    ensures |r| == |ms| && forall i :: 0 <= i < |r| ==> r[i] == Published(ms[i])
  {
    if ms == [] then [] else [Published(ms[0])] + Sends(ms[1..])
  }

  /** The record with this id was read at position i, and directly after that every message
      of what was read went out, in order and without a break. */
  ghost predicate UploadAt(cfg: Config, trace: seq<Effect>, id: nat, i: nat)
  {
    && i < |trace| && trace[i].ReadRecord? && trace[i].id == id && trace[i].content != []
    && var ms := Messages(id, trace[i].content, cfg.chunkBytes, cfg.buildId);
      i + 1 + |ms| <= |trace| && trace[i + 1..i + 1 + |ms|] == Sends(ms)
  }

  ghost predicate FullySent(cfg: Config, trace: seq<Effect>, id: nat)
  {
    exists i: nat :: UploadAt(cfg, trace, id, i)
  }

  /** An effect is legal after a history: record files go only after all chunks read from
      the record with their id; the state file lists only fully sent ids and forgets
      nothing the task remembers; nothing remembered is read or published again. */
  ghost predicate Legal(cfg: Config, history: seq<Effect>, e: Effect)
  {
    match e
    case ReadRecord(_, id, _) => id !in Ids(Remembered(history))
    case Published(m) => m.id !in Ids(Remembered(history))
    case Saved(rs) =>
      && (forall r :: r in rs ==> FullySent(cfg, history, r.id))
      && (forall r :: r in Remembered(history) ==> r in rs)
    case Removed(_, id) => FullySent(cfg, history, id)
    case _ => true
  }

  ghost predicate AllLegal(cfg: Config, trace: seq<Effect>)
  {
    forall i :: 0 <= i < |trace| ==> Legal(cfg, trace[..i], trace[i])
  }

  lemma FullySentGrows(cfg: Config, trace: seq<Effect>, more: seq<Effect>, id: nat)
    requires FullySent(cfg, trace, id)
    ensures FullySent(cfg, trace + more, id)
  {
    var i: nat :| UploadAt(cfg, trace, id, i);
    var n := |Messages(id, trace[i].content, cfg.chunkBytes, cfg.buildId)|;
    assert (trace + more)[i + 1..i + 1 + n] == trace[i + 1..i + 1 + n];
    assert UploadAt(cfg, trace + more, id, i);
  }

  lemma AppendLegal(cfg: Config, trace: seq<Effect>, e: Effect)
    requires AllLegal(cfg, trace) && Legal(cfg, trace, e)
    ensures AllLegal(cfg, trace + [e])
  {
    hide Legal;
    forall i | 0 <= i < |trace + [e]| ensures Legal(cfg, (trace + [e])[..i], (trace + [e])[i]) {
      if i < |trace| {
        assert (trace + [e])[..i] == trace[..i];
      } else {
        assert (trace + [e])[..i] == trace;
      }
    }
  }

  /** A crash keeps the law: it only cuts the trace short. */
  lemma CrashKeepsLegal(cfg: Config, trace: seq<Effect>, k: nat)
    requires AllLegal(cfg, trace) && k <= |trace|
    ensures AllLegal(cfg, trace[..k])
  {
    hide Legal;
    forall i | 0 <= i < k ensures Legal(cfg, trace[..k][..i], trace[..k][i]) {
      assert trace[..k][..i] == trace[..i];
    }
  }

  /** What is on file has been fully sent. */
  lemma {:induction false} OnFileFullySent(cfg: Config, trace: seq<Effect>, r: Delivered)
    requires AllLegal(cfg, trace) && r in OnFile(trace)
    ensures FullySent(cfg, trace, r.id)
  {
    hide FullySent;
    var k := |trace| - 1;
    assert trace == trace[..k] + [trace[k]];
    assert Legal(cfg, trace[..k], trace[k]);
    if !trace[k].Saved? {
      CrashKeepsLegal(cfg, trace, k);
      OnFileFullySent(cfg, trace[..k], r);
    }
    FullySentGrows(cfg, trace[..k], [trace[k]], r.id);
  }

  /** No start in trace[i..j] prunes r. */
  ghost predicate NotPruned(trace: seq<Effect>, r: Delivered, i: nat, j: nat)
    requires i <= j <= |trace|
  {
    forall k :: i <= k < j && trace[k].Started? ==> Kept(r, trace[k].now)
  }

  lemma {:induction false} StaysRemembered(cfg: Config, trace: seq<Effect>, r: Delivered, i: nat, j: nat)
    requires AllLegal(cfg, trace) && i < j <= |trace| && trace[i].Saved? && r in trace[i].records
    requires NotPruned(trace, r, i, j)
    ensures r in Remembered(trace[..j]) && r in OnFile(trace[..j])
    decreases j
  {
    hide FullySent;
    assert trace[..j][..j - 1] == trace[..j - 1];
    if i < j - 1 {
      StaysRemembered(cfg, trace, r, i, j - 1);
      assert Legal(cfg, trace[..j - 1], trace[j - 1]);
    }
  }

  /** Once an id is on file and not pruned, no later scan publishes it again, over any
      number of restarts and crashes. */
  lemma NoRepublication(cfg: Config, trace: seq<Effect>, r: Delivered, i: nat, j: nat)
    requires AllLegal(cfg, trace) && i < j < |trace|
    requires trace[i].Saved? && r in trace[i].records && NotPruned(trace, r, i, j)
    ensures trace[j].Published? ==> trace[j].m.id != r.id
    ensures trace[j].ReadRecord? ==> trace[j].id != r.id
  {
    hide FullySent;
    StaysRemembered(cfg, trace, r, i, j);
    assert Legal(cfg, trace[..j], trace[j]);
  }

  /** Before a record's file is deleted, a record with its id was read, and the messages
      that went out directly after that rebuild exactly what was read. */
  lemma RemovedIsRecoverable(cfg: Config, trace: seq<Effect>, k: nat) returns (i: nat, ms: seq<Message>)
    requires cfg.Valid() && AllLegal(cfg, trace) && k < |trace| && trace[k].Removed?
    ensures i < k && trace[i].ReadRecord? && trace[i].id == trace[k].id && UploadAt(cfg, trace[..k], trace[k].id, i)
    ensures ms == Messages(trace[k].id, trace[i].content, cfg.chunkBytes, cfg.buildId)
    ensures i + 1 + |ms| <= k && trace[i + 1..i + 1 + |ms|] == Sends(ms)
    ensures Reassemble(ms) == Some(trace[i].content)
  {
    assert Legal(cfg, trace[..k], trace[k]);
    i :| UploadAt(cfg, trace[..k], trace[k].id, i);
    var content := trace[i].content;
    ms := Messages(trace[k].id, content, cfg.chunkBytes, cfg.buildId);
    assert trace[..k][i + 1..i + 1 + |ms|] == trace[i + 1..i + 1 + |ms|];
    hide Messages, Reassemble, Sends;
    ReassemblesExactly(trace[k].id, content, cfg.chunkBytes, cfg.buildId, ms);
  }

  // ---- the outside world -------------------------------------------------------------------------

  /** The client, the state file and the record directories. Publishing, saving and
      removing may fail. */
  class World {
    var trace: seq<Effect>

    constructor ()
      ensures trace == []
    {
      trace := [];
    }

    method PublishPayload(m: Message) returns (ok: bool)
      modifies this
      ensures trace == old(trace) + [if ok then Published(m) else Refused(m)]
    {
      ok := *;
      trace := trace + [if ok then Published(m) else Refused(m)];
    }

    /** `State::save`: temporary file, then rename. */
    method SaveState(records: seq<Delivered>) returns (ok: bool)
      modifies this
      ensures trace == old(trace) + [if ok then Saved(records) else SaveFailed]
    {
      ok := *;
      trace := trace + [if ok then Saved(records) else SaveFailed];
    }

    /** `State::load`. */
    method LoadState() returns (records: seq<Delivered>)
      ensures records == OnFile(trace)
    {
      records := OnFile(trace);
    }

    method RemoveFile(path: string, id: nat) returns (ok: bool)
      modifies this
      ensures trace == old(trace) + [if ok then Removed(path, id) else RemoveFailed(path, id)]
    {
      ok := *;
      trace := trace + [if ok then Removed(path, id) else RemoveFailed(path, id)];
    }

    /** A crash at any point of the life that began when the trace was `since` long. */
    method Crash(since: nat)
      requires since <= |trace|
      modifies this
      ensures since <= |trace| <= |old(trace)| && trace == old(trace)[..|trace|]
    {
      var k: nat := *;
      if since <= k <= |trace| {
        trace := trace[..k];
      }
    }
  }

  /** `State`: delivered ids in memory. */
  class State {
    var delivered: seq<Delivered>

    constructor (delivered: seq<Delivered>)
      ensures this.delivered == delivered
    {
      this.delivered := delivered;
    }

    predicate Contains(id: nat)
      reads this
      ensures Contains(id) <==> id in Ids(delivered)
    {
      exists r :: r in delivered && r.id == id
    }

    method Insert(id: nat, ts: nat)
      modifies this
      ensures delivered == if old(Contains(id)) then old(delivered) else old(delivered) + [Delivered(id, ts)]
      ensures Contains(id)
    {
      if !Contains(id) {
        delivered := delivered + [Delivered(id, ts)];
        assert Delivered(id, ts) in delivered;
      }
    }

    method PruneOld(now: nat)
      modifies this
      ensures delivered == Prune(old(delivered), now)
      ensures forall r :: r in delivered <==> r in old(delivered) && now <= r.ts + 604_800
    {
      var rs, kept := delivered, [];
      for i := 0 to |rs|
        invariant kept == Prune(rs[..i], now)
      {
        assert rs[..i + 1] == rs[..i] + [rs[i]];
        PruneAppend(rs[..i], rs[i], now);
        if Kept(rs[i], now) {
          kept := kept + [rs[i]];
        }
      }
      assert rs[..|rs|] == rs;
      delivered := kept;
    }
  }

  /** The law, and what the running task knows: it remembers at least what it is
      bound to, and only fully sent ids. */
  ghost predicate Consistent(cfg: Config, trace: seq<Effect>, delivered: seq<Delivered>)
  {
    && AllLegal(cfg, trace)
    && (forall r :: r in Remembered(trace) ==> r in delivered)
    && (forall r :: r in delivered ==> FullySent(cfg, trace, r.id))
  }

  /** One attempt to delete the file, if deleting is configured. */
  ghost predicate IsRemoval(cfg: Config, path: string, id: nat, added: seq<Effect>)
  {
    if cfg.deleteAfterCapture then added == [Removed(path, id)] || added == [RemoveFailed(path, id)] else added == []
  }

  /** `maybe_delete`. */
  method MaybeDelete(cfg: Config, world: World, path: string, id: nat, ghost delivered: seq<Delivered>)
    returns (ghost added: seq<Effect>)
    requires Consistent(cfg, world.trace, delivered) && FullySent(cfg, world.trace, id)
    modifies world
    ensures world.trace == old(world.trace) + added && IsRemoval(cfg, path, id, added)
    ensures Consistent(cfg, world.trace, delivered)
  {
    added := [];
    if cfg.deleteAfterCapture {
      var ok := world.RemoveFile(path, id);
      added := [if ok then Removed(path, id) else RemoveFailed(path, id)];
      Append(cfg, old(world.trace), added[0], delivered);
    } else {
      assert world.trace + [] == world.trace;
    }
  }

  /** A legal effect that does not touch the state file keeps the task consistent. */
  lemma Append(cfg: Config, trace: seq<Effect>, e: Effect, delivered: seq<Delivered>)
    requires Consistent(cfg, trace, delivered) && Legal(cfg, trace, e) && !e.Started?
    requires e.Saved? ==> e.records == delivered
    ensures Consistent(cfg, trace + [e], delivered)
  {
    hide FullySent;
    AppendLegal(cfg, trace, e);
    assert (trace + [e])[..|trace|] == trace;
    forall r | r in delivered ensures FullySent(cfg, trace + [e], r.id) {
      FullySentGrows(cfg, trace, [e], r.id);
    }
  }

  /** `publish_core_dump`, of what was just read: the messages of exactly that content go
      out in order until one fails. */
  method PublishCoreDump(cfg: Config, world: World, path: string, id: nat, content: seq<Byte>, ghost delivered: seq<Delivered>)
    returns (ok: bool, ghost k: nat)
    requires cfg.Valid() && content != []
    requires world.trace != [] && world.trace[|world.trace| - 1] == ReadRecord(path, id, content)
    requires Consistent(cfg, world.trace, delivered) && id !in Ids(delivered)
    modifies world
    ensures var ms := Messages(id, content, cfg.chunkBytes, cfg.buildId);
      if ok then world.trace == old(world.trace) + Sends(ms)
      else k < |ms| && world.trace == old(world.trace) + Sends(ms)[..k] + [Refused(ms[k])]
    ensures Consistent(cfg, world.trace, delivered)
    ensures ok ==> FullySent(cfg, world.trace, id)
  {
    var ms := Messages(id, content, cfg.chunkBytes, cfg.buildId);
    assert forall j :: 0 <= j < |ms| ==> ms[j].id == id;
    hide *;
    ghost var start, sends := world.trace, Sends(ms);
    assert start + sends[..0] == start;
    k := 0;
    var i := 0;
    while i < |ms|
      invariant 0 <= i <= |ms| && k == i
      invariant world.trace == start + sends[..i]
      invariant Consistent(cfg, world.trace, delivered)
    {
      ghost var before := world.trace;
      var sent := world.PublishPayload(ms[i]);
      if !sent {
        RefusedIsLegal(cfg, before, ms[i]);
        Append(cfg, before, Refused(ms[i]), delivered);
        return false, k;
      }
      PublishIsLegal(cfg, before, ms[i], id, delivered);
      Append(cfg, before, sends[i], delivered);
      NextPrefix(start, sends, i);
      i, k := i + 1, k + 1;
    }
    assert sends[..i] == sends;
    SentNow(cfg, start, path, id, content);
    ok := true;
  }

  lemma NextPrefix<T>(a: seq<T>, b: seq<T>, i: nat)
    requires i < |b|
    ensures (a + b[..i]) + [b[i]] == a + b[..i + 1]
  {
  }

  lemma PublishIsLegal(cfg: Config, trace: seq<Effect>, m: Message, id: nat, delivered: seq<Delivered>)
    requires Consistent(cfg, trace, delivered) && id !in Ids(delivered) && m.id == id
    ensures Legal(cfg, trace, Published(m))
  {
    hide FullySent, AllLegal;
    assert forall r :: r in Remembered(trace) ==> r in delivered && r.id in Ids(delivered);
  }

  lemma RefusedIsLegal(cfg: Config, trace: seq<Effect>, m: Message)
    ensures Legal(cfg, trace, Refused(m))
  {
  }

  lemma ReadIsLegal(cfg: Config, trace: seq<Effect>, path: string, id: nat, content: seq<Byte>, delivered: seq<Delivered>)
    requires Consistent(cfg, trace, delivered) && id !in Ids(delivered)
    ensures Legal(cfg, trace, ReadRecord(path, id, content))
  {
    hide FullySent, AllLegal;
    assert forall r :: r in Remembered(trace) ==> r in delivered && r.id in Ids(delivered);
  }

  lemma SentNow(cfg: Config, start: seq<Effect>, path: string, id: nat, content: seq<Byte>)
    requires content != [] && start != [] && start[|start| - 1] == ReadRecord(path, id, content)
    ensures FullySent(cfg, start + Sends(Messages(id, content, cfg.chunkBytes, cfg.buildId)), id)
  {
    var ms := Messages(id, content, cfg.chunkBytes, cfg.buildId);
    var trace := start + Sends(ms);
    assert trace[|start|..|start| + |ms|] == Sends(ms);
    assert UploadAt(cfg, trace, id, |start| - 1);
  }

  // ---- one scan --------------------------------------------------------------------------------

  predicate StartsWith(s: seq<Byte>, prefix: seq<Byte>) { prefix <= s }

  /** `matches_kind`. */
  predicate MatchesKind(fname: seq<Byte>, kinds: seq<seq<Byte>>)
  {
    exists k :: k in kinds && StartsWith(fname, k)
  }

  /** A regular file with a name of a configured kind. */
  predicate Candidate(cfg: Config, e: Entry)
  {
    e.fname.Some? && MatchesKind(e.fname.value, cfg.kinds) && e.meta.Some? && e.meta.value.isFile
  }

  function IdOf(e: Entry): nat
    requires e.fname.Some? && e.meta.Some?
  {
    Fnv.CoreDumpId(e.fname.value, e.meta.value.mtime)
  }

  /** What a scan that ends idle says about an entry. */
  ghost predicate Dealt(cfg: Config, connected: bool, delivered: seq<Delivered>, e: Entry)
  {
    Candidate(cfg, e) ==>
      || IdOf(e) in Ids(delivered)
      || (connected && (e.data.None? || Capped(e.data.value, cfg.maxBytes) == []))
  }

  ghost predicate Waiting(cfg: Config, delivered: seq<Delivered>, e: Entry)
  {
    Candidate(cfg, e) && IdOf(e) !in Ids(delivered)
  }

  ghost predicate DealtAll(cfg: Config, connected: bool, delivered: seq<Delivered>, entries: seq<Entry>)
  {
    forall e :: e in entries ==> Dealt(cfg, connected, delivered, e)
  }

  lemma DealtStays(cfg: Config, connected: bool, before: seq<Delivered>, after: seq<Delivered>)
    requires before <= after
    ensures forall entries :: DealtAll(cfg, connected, before, entries) ==> DealtAll(cfg, connected, after, entries)
  {
    hide Candidate, IdOf;
    assert Ids(before) <= Ids(after);
  }

  datatype EntryResult = Done | Deferred | Failed

  /** Everything the body of the inner loop may do for one entry, and its result. */
  ghost predicate Handled(cfg: Config, e: Entry, connected: bool, before: seq<Delivered>,
                          after: seq<Delivered>, added: seq<Effect>, r: EntryResult)
  {
    if !Candidate(cfg, e) then added == [] && r == Done && after == before
    else if IdOf(e) in Ids(before) then IsRemoval(cfg, e.path, IdOf(e), added) && r == Done && after == before
    else if !connected then added == [] && r == Deferred && after == before
    else if e.data.None? || Capped(e.data.value, cfg.maxBytes) == [] then added == [] && r == Done && after == before
    else Uploaded(cfg, e.path, IdOf(e), Capped(e.data.value, cfg.maxBytes), e.time, before, after, added, r)
  }

  /** An upload that fails at some message, or that succeeds and is then recorded, saved
      (or not) and its record removed (or not), in this order. */
  ghost predicate Uploaded(cfg: Config, path: string, id: nat, content: seq<Byte>, time: nat, before: seq<Delivered>,
                           after: seq<Delivered>, added: seq<Effect>, r: EntryResult)
  {
    var ms := Messages(id, content, cfg.chunkBytes, cfg.buildId);
    if r == Failed then
      after == before && exists k :: FailsAt(added, path, id, content, ms, k)
    else
      && r == Done && after == before + [Delivered(id, time)]
      && exists save, removal :: IsRemoval(cfg, path, id, removal) && (save == Saved(after) || save == SaveFailed)
           && added == [ReadRecord(path, id, content)] + Sends(ms) + [save] + removal
  }

  ghost predicate FailsAt(added: seq<Effect>, path: string, id: nat, content: seq<Byte>, ms: seq<Message>, k: int)
  {
    0 <= k < |ms| && added == [ReadRecord(path, id, content)] + Sends(ms)[..k] + [Refused(ms[k])]
  }

  /** The body of the inner loop, for one directory entry. */
  method HandleEntry(cfg: Config, e: Entry, connected: bool, world: World, state: State)
    returns (r: EntryResult, ghost added: seq<Effect>)
    requires cfg.Valid() && Consistent(cfg, world.trace, state.delivered)
    modifies world, state
    ensures world.trace == old(world.trace) + added
    ensures Handled(cfg, e, connected, old(state.delivered), state.delivered, added, r)
    ensures Consistent(cfg, world.trace, state.delivered)
  {
    hide AllLegal, Legal, FullySent, Capped, IdOf, MatchesKind, Consistent, IsRemoval, Uploaded;
    added := [];
    if !Candidate(cfg, e) {
      return Done, added;
    }
    var id := IdOf(e);
    if state.Contains(id) {
      KnownFullySent(cfg, world.trace, state.delivered, id);
      added := MaybeDelete(cfg, world, e.path, id, state.delivered);
      return Done, added;
    }
    if !connected {
      return Deferred, added;
    }
    if e.data.None? {
      return Done, added;
    }
    var content := Capped(e.data.value, cfg.maxBytes);
    if content == [] {
      return Done, added;
    }
    r, added := Upload(cfg, e.path, id, content, e.time, world, state);
  }

  /** Publish what was read; then record, save and remove. */
  method Upload(cfg: Config, path: string, id: nat, content: seq<Byte>, time: nat, world: World, state: State)
    returns (r: EntryResult, ghost added: seq<Effect>)
    requires cfg.Valid() && content != [] && !state.Contains(id)
    requires Consistent(cfg, world.trace, state.delivered)
    modifies world, state
    ensures world.trace == old(world.trace) + added
    ensures Uploaded(cfg, path, id, content, time, old(state.delivered), state.delivered, added, r)
    ensures Consistent(cfg, world.trace, state.delivered)
  {
    hide AllLegal, Legal, FullySent, Consistent, IsRemoval, Messages, Sends;
    ghost var start, read := world.trace, ReadRecord(path, id, content);
    ReadIsLegal(cfg, start, path, id, content, state.delivered);
    Append(cfg, start, read, state.delivered);
    world.trace := world.trace + [ReadRecord(path, id, content)];
    var ok;
    ghost var k;
    ok, k := PublishCoreDump(cfg, world, path, id, content, state.delivered);
    ghost var ms := Messages(id, content, cfg.chunkBytes, cfg.buildId);
    if !ok {
      added := [read] + Sends(ms)[..k] + [Refused(ms[k])];
      assert FailsAt(added, path, id, content, ms, k as int);
      return Failed, added;
    }
    ghost var save := RecordDelivery(cfg, world, state, id, time);
    ghost var removal := MaybeDelete(cfg, world, path, id, state.delivered);
    r, added := Done, [read] + Sends(ms) + [save] + removal;
  }

  lemma KnownFullySent(cfg: Config, trace: seq<Effect>, delivered: seq<Delivered>, id: nat)
    requires Consistent(cfg, trace, delivered) && id in Ids(delivered)
    ensures FullySent(cfg, trace, id)
  {
    hide FullySent;
  }

  /** Delivery is recorded and persisted, or that attempted, before the record may be deleted. */
  method RecordDelivery(cfg: Config, world: World, state: State, id: nat, time: nat) returns (ghost save: Effect)
    requires Consistent(cfg, world.trace, state.delivered) && FullySent(cfg, world.trace, id) && !state.Contains(id)
    modifies world, state
    ensures world.trace == old(world.trace) + [save] && (save == Saved(state.delivered) || save == SaveFailed)
    ensures state.delivered == old(state.delivered) + [Delivered(id, time)]
    ensures Consistent(cfg, world.trace, state.delivered) && FullySent(cfg, world.trace, id)
  {
    hide AllLegal, FullySent;
    state.Insert(id, time);
    ghost var before := world.trace;
    var ok := world.SaveState(state.delivered);
    save := if ok then Saved(state.delivered) else SaveFailed;
    Append(cfg, before, save, state.delivered);
    FullySentGrows(cfg, before, [save], id);
  }

  // ---- what a scan may do, and why -----------------------------------------------------------------

  /** The effect is accounted for by this entry: it concerns its file, its id and its bytes;
      reading, publishing and saving happen only when connected; and the file goes only if
      its id is among the delivered. */
  ghost predicate Explains(cfg: Config, e: Entry, connected: bool, delivered: seq<Delivered>, eff: Effect)
  {
    Candidate(cfg, e) &&
    match eff
    case ReadRecord(path, id, content) =>
      connected && path == e.path && id == IdOf(e) && e.data.Some? && content == Capped(e.data.value, cfg.maxBytes)
    case Published(m) => connected && Carries(cfg, e, m)
    case Refused(m) => connected && Carries(cfg, e, m)
    case Saved(_) => connected
    case SaveFailed => connected
    case Removed(path, id) => cfg.deleteAfterCapture && path == e.path && id == IdOf(e) && id in Ids(delivered)
    case RemoveFailed(path, id) => cfg.deleteAfterCapture && path == e.path && id == IdOf(e) && id in Ids(delivered)
    case Started(_) => false
  }

  /** The message is one of those of this entry's capped content under its id. */
  ghost predicate Carries(cfg: Config, e: Entry, m: Message)
    requires Candidate(cfg, e)
  {
    e.data.Some? && m in Messages(IdOf(e), Capped(e.data.value, cfg.maxBytes), cfg.chunkBytes, cfg.buildId)
  }

  lemma RemovalExplained(cfg: Config, e: Entry, connected: bool, delivered: seq<Delivered>, added: seq<Effect>)
    requires Candidate(cfg, e) && IsRemoval(cfg, e.path, IdOf(e), added) && IdOf(e) in Ids(delivered)
    ensures forall eff :: eff in added ==> Explains(cfg, e, connected, delivered, eff)
  {
    hide Candidate, IdOf, Carries;
  }

  lemma SendsExplained(cfg: Config, e: Entry, delivered: seq<Delivered>, ms: seq<Message>)
    requires Candidate(cfg, e) && forall m :: m in ms ==> Carries(cfg, e, m)
    ensures forall eff :: eff in Sends(ms) ==> Explains(cfg, e, true, delivered, eff)
  {
    hide Candidate, IdOf, Carries;
  }

  lemma UploadExplained(cfg: Config, e: Entry, before: seq<Delivered>, after: seq<Delivered>, added: seq<Effect>, r: EntryResult)
    requires Candidate(cfg, e) && e.data.Some?
    requires Uploaded(cfg, e.path, IdOf(e), Capped(e.data.value, cfg.maxBytes), e.time, before, after, added, r)
    ensures forall eff :: eff in added ==> Explains(cfg, e, true, after, eff)
    ensures r == Done ==> IdOf(e) in Ids(after)
  {
    var path, id, content := e.path, IdOf(e), Capped(e.data.value, cfg.maxBytes);
    var ms := Messages(id, content, cfg.chunkBytes, cfg.buildId);
    SendsExplained(cfg, e, after, ms);
    hide Candidate, IdOf, Capped, Messages, Sends, IsRemoval;
    assert Explains(cfg, e, true, after, ReadRecord(path, id, content));
    if r == Failed {
      var k :| FailsAt(added, path, id, content, ms, k);
      assert Carries(cfg, e, ms[k]);
      assert Explains(cfg, e, true, after, Refused(ms[k]));
      hide Explains;
    } else {
      assert after[|before|] in after && id in Ids(after);
      var save, removal :| IsRemoval(cfg, path, id, removal) && (save == Saved(after) || save == SaveFailed)
                        && added == [ReadRecord(path, id, content)] + Sends(ms) + [save] + removal;
      RemovalExplained(cfg, e, true, after, removal);
      assert Explains(cfg, e, true, after, save);
      hide Explains;
    }
  }

  /** The file name starts with one of the configured kinds, and the entry is a regular file. */
  ghost predicate IsRecord(cfg: Config, e: Entry)
  {
    && e.fname.Some? && e.meta.Some? && e.meta.value.isFile
    && exists k :: k in cfg.kinds && |k| <= |e.fname.value| && e.fname.value[..|k|] == k
  }

  lemma RecordsAreCandidates(cfg: Config, e: Entry)
    ensures IsRecord(cfg, e) <==> Candidate(cfg, e)
  {
    if Candidate(cfg, e) {
      var k :| k in cfg.kinds && StartsWith(e.fname.value, k);
      assert e.fname.value[..|k|] == k;
    }
    if IsRecord(cfg, e) {
      var k :| k in cfg.kinds && |k| <= |e.fname.value| && e.fname.value[..|k|] == k;
      assert StartsWith(e.fname.value, k);
    }
  }

  /** What the handling of an entry does, said of the trace itself. Only records are touched.
      One whose id is known is deleted, or that is attempted, exactly if deleting is
      configured. An unknown one waits when offline; when connected its first bytes are
      read and its pieces published, and after the last one the delivery is recorded, a
      save attempted, and only then the deletion. */
  lemma HandledMeans(cfg: Config, e: Entry, connected: bool, before: seq<Delivered>, after: seq<Delivered>,
                     added: seq<Effect>, r: EntryResult)
    requires cfg.Valid() && Handled(cfg, e, connected, before, after, added, r)
    ensures !IsRecord(cfg, e) ==> added == [] && r == Done && after == before
    ensures IsRecord(cfg, e) ==>
      var id := Fnv.CoreDumpId(e.fname.value, e.meta.value.mtime);
      var known := exists d :: d in before && d.id == id;
      && (known ==> after == before && r == Done)
      && (known && cfg.deleteAfterCapture ==> added == [Removed(e.path, id)] || added == [RemoveFailed(e.path, id)])
      && (known && !cfg.deleteAfterCapture ==> added == [])
      && (!known && !connected ==> added == [] && r == Deferred && after == before)
      && (!known && connected && (e.data.None? || e.data.value == []) ==> added == [] && r == Done && after == before)
      && (!known && connected && e.data.Some? && e.data.value != [] ==>
            && added != [] && added[0].ReadRecord? && added[0].path == e.path && added[0].id == id
            && added[0].content <= e.data.value
            && |added[0].content| == (if |e.data.value| < cfg.maxBytes then |e.data.value| else cfg.maxBytes)
            && (r == Failed || r == Done)
            && (r == Failed ==> after == before && CutOff(cfg, id, added[0].content, added))
            && (r == Done ==> UploadedAndRecorded(cfg, e.path, id, added[0].content, e.time, before, after, added)))
  {
    hide IdOf, Capped, Messages, Sends, MatchesKind;
    RecordsAreCandidates(cfg, e);
    if Candidate(cfg, e) {
      assert IdOf(e) == Fnv.CoreDumpId(e.fname.value, e.meta.value.mtime) by { IdIs(e); }
      if e.data.Some? {
        CappedIsFirstBytes(e.data.value, cfg.maxBytes);
        if IdOf(e) !in Ids(before) && connected && e.data.value != [] {
          UploadMeans(cfg, e.path, IdOf(e), Capped(e.data.value, cfg.maxBytes), e.time, before, after, added, r);
        }
      }
    }
  }

  lemma IdIs(e: Entry)
    requires e.fname.Some? && e.meta.Some?
    ensures IdOf(e) == Fnv.CoreDumpId(e.fname.value, e.meta.value.mtime)
  {
  }

  /** All pieces published in order, then the record of the delivery, the save, the deletion. */
  ghost predicate UploadedAndRecorded(cfg: Config, path: string, id: nat, content: seq<Byte>, time: nat,
                                      before: seq<Delivered>, after: seq<Delivered>, added: seq<Effect>)
  {
    var ms := Messages(id, content, cfg.chunkBytes, cfg.buildId); var n := |ms|;
    && |added| == n + (if cfg.deleteAfterCapture then 3 else 2)
    && (forall j :: 0 <= j < n ==> added[1 + j] == Published(ms[j]))
    && after == before + [Delivered(id, time)]
    && (added[n + 1] == Saved(after) || added[n + 1] == SaveFailed)
    && (cfg.deleteAfterCapture ==> added[n + 2] == Removed(path, id) || added[n + 2] == RemoveFailed(path, id))
  }

  /** Some first pieces published in order, and the next one refused. */
  ghost predicate CutOff(cfg: Config, id: nat, content: seq<Byte>, added: seq<Effect>)
  {
    var ms := Messages(id, content, cfg.chunkBytes, cfg.buildId); var k := |added| - 2;
    && 0 <= k < |ms| && added[k + 1] == Refused(ms[k]) && forall j :: 0 <= j < k ==> added[1 + j] == Published(ms[j])
  }

  lemma UploadMeans(cfg: Config, path: string, id: nat, content: seq<Byte>, time: nat, before: seq<Delivered>,
                    after: seq<Delivered>, added: seq<Effect>, r: EntryResult)
    requires Uploaded(cfg, path, id, content, time, before, after, added, r)
    ensures added != [] && added[0] == ReadRecord(path, id, content) && (r == Failed || r == Done)
    ensures r == Failed ==> after == before && CutOff(cfg, id, content, added)
    ensures r == Done ==> UploadedAndRecorded(cfg, path, id, content, time, before, after, added)
  {
    var ms := Messages(id, content, cfg.chunkBytes, cfg.buildId);
    hide Messages, IsRemoval, Sends, CutOff, UploadedAndRecorded;
    if r == Done {
      var save, removal :| IsRemoval(cfg, path, id, removal) && (save == Saved(after) || save == SaveFailed)
                        && added == [ReadRecord(path, id, content)] + Sends(ms) + [save] + removal;
      DoneMeans(cfg, path, id, content, time, before, after, added, save, removal);
    } else {
      var k :| FailsAt(added, path, id, content, ms, k);
      FailedMeans(cfg, path, id, content, added, k);
    }
  }

  lemma DoneMeans(cfg: Config, path: string, id: nat, content: seq<Byte>, time: nat, before: seq<Delivered>,
                  after: seq<Delivered>, added: seq<Effect>, save: Effect, removal: seq<Effect>)
    requires after == before + [Delivered(id, time)]
    requires IsRemoval(cfg, path, id, removal) && (save == Saved(after) || save == SaveFailed)
    requires added == [ReadRecord(path, id, content)] + Sends(Messages(id, content, cfg.chunkBytes, cfg.buildId)) + [save] + removal
    ensures UploadedAndRecorded(cfg, path, id, content, time, before, after, added)
  {
    var ms := Messages(id, content, cfg.chunkBytes, cfg.buildId);
    hide Messages, Sends;
    Parts<Effect>(ReadRecord(path, id, content), Sends(ms), save, removal);
  }

  lemma Parts<T>(first: T, middle: seq<T>, next: T, last: seq<T>)
    ensures var all := [first] + middle + [next] + last; var n := |middle|;
      && |all| == n + 2 + |last| && all[0] == first && all[n + 1] == next && (last != [] ==> all[n + 2] == last[0])
      && forall j :: 0 <= j < n ==> all[1 + j] == middle[j]
  {
  }

  lemma FailedMeans(cfg: Config, path: string, id: nat, content: seq<Byte>, added: seq<Effect>, k: int)
    requires FailsAt(added, path, id, content, Messages(id, content, cfg.chunkBytes, cfg.buildId), k)
    ensures added[0] == ReadRecord(path, id, content) && CutOff(cfg, id, content, added)
  {
    hide Messages;
  }

  /** Everything done for an entry is explained by it. */
  lemma HandledExplained(cfg: Config, e: Entry, connected: bool, before: seq<Delivered>, after: seq<Delivered>,
                         added: seq<Effect>, r: EntryResult)
    requires Handled(cfg, e, connected, before, after, added, r)
    ensures forall eff :: eff in added ==> Explains(cfg, e, connected, after, eff)
    ensures before <= after && (!connected ==> after == before)
    ensures r == Done ==> Dealt(cfg, connected, after, e)
    ensures r != Done ==> Waiting(cfg, after, e) && (r == Failed <==> connected)
  {
    hide MatchesKind, IdOf, Capped, IsRemoval, Carries, Explains;
    if Candidate(cfg, e) {
      if IdOf(e) in Ids(before) {
        RemovalExplained(cfg, e, connected, before, added);
      } else if connected && e.data.Some? && Capped(e.data.value, cfg.maxBytes) != [] {
        UploadExplained(cfg, e, before, after, added, r);
      }
    }
  }

  ghost predicate Listed(listings: seq<Option<seq<Entry>>>, e: Entry)
  {
    exists d :: 0 <= d < |listings| && listings[d].Some? && e in listings[d].value
  }

  ghost predicate ExplainedBy(cfg: Config, listings: seq<Option<seq<Entry>>>, connected: bool,
                              delivered: seq<Delivered>, eff: Effect)
  {
    exists e :: Listed(listings, e) && Explains(cfg, e, connected, delivered, eff)
  }

  ghost predicate AllExplained(cfg: Config, listings: seq<Option<seq<Entry>>>, connected: bool,
                               delivered: seq<Delivered>, added: seq<Effect>)
  {
    forall eff :: eff in added ==> ExplainedBy(cfg, listings, connected, delivered, eff)
  }

  lemma ExplainsStays(cfg: Config, e: Entry, connected: bool, before: seq<Delivered>, after: seq<Delivered>, eff: Effect)
    requires Explains(cfg, e, connected, before, eff) && before <= after
    ensures Explains(cfg, e, connected, after, eff)
  {
    hide Candidate, IdOf, Carries;
    assert Ids(before) <= Ids(after);
  }

  lemma MoreExplained(cfg: Config, listings: seq<Option<seq<Entry>>>, connected: bool, before: seq<Delivered>,
                      after: seq<Delivered>, added: seq<Effect>, e: Entry, more: seq<Effect>)
    requires AllExplained(cfg, listings, connected, before, added) && before <= after && Listed(listings, e)
    requires forall eff :: eff in more ==> Explains(cfg, e, connected, after, eff)
    ensures AllExplained(cfg, listings, connected, after, added + more)
  {
    hide Explains, Listed;
    forall eff | eff in added + more ensures ExplainedBy(cfg, listings, connected, after, eff) {
      if eff in added {
        assert ExplainedBy(cfg, listings, connected, before, eff);
        var f :| Listed(listings, f) && Explains(cfg, f, connected, before, eff);
        ExplainsStays(cfg, f, connected, before, after, eff);
      }
    }
  }

  ghost predicate SomeWaiting(cfg: Config, listings: seq<Option<seq<Entry>>>, delivered: seq<Delivered>)
  {
    exists e :: Listed(listings, e) && Waiting(cfg, delivered, e)
  }

  ghost predicate AllDealt(cfg: Config, listings: seq<Option<seq<Entry>>>, connected: bool, delivered: seq<Delivered>)
  {
    forall d :: 0 <= d < |listings| && listings[d].Some? ==> DealtAll(cfg, connected, delivered, listings[d].value)
  }

  // ---- what a scan does, entry by entry --------------------------------------------------------------

  /** The handling of entries one after the other: what is remembered before the first and
      after each, what each adds to the trace, and how it ends. */
  datatype ScanLog = ScanLog(states: seq<seq<Delivered>>, effects: seq<seq<Effect>>, results: seq<EntryResult>)

  /** The entries of the directories that can be read, in order. */
  function Entries(listings: seq<Option<seq<Entry>>>): seq<Entry>
  {
    if listings == [] then []
    else (match listings[0] case Some(es) => es case None => []) + Entries(listings[1..])
  }

  /** Entries are handled in order from the first one on, and after a failure no more are. */
  ghost predicate Scanned(cfg: Config, entries: seq<Entry>, connected: bool, log: ScanLog,
                          before: seq<Delivered>, after: seq<Delivered>, added: seq<Effect>)
  {
    && |log.effects| == |log.results| <= |entries| && |log.states| == |log.results| + 1
    && log.states[0] == before && log.states[|log.results|] == after && Flatten(log.effects) == added
    && (forall i :: 0 <= i < |log.results| ==>
          Handled(cfg, entries[i], connected, log.states[i], log.states[i + 1], log.effects[i], log.results[i]))
    && (forall i :: 0 <= i < |log.results| - 1 ==> log.results[i] != Failed)
  }

  predicate AnyFailed(log: ScanLog) { Failed in log.results }

  /** A scan goes through all entries or ends with a failure; it is idle if every entry is done. */
  ghost predicate ScanEnds(entries: seq<Entry>, log: ScanLog, outcome: ScanOutcome)
  {
    && (|log.results| == |entries| || AnyFailed(log))
    && (outcome == Idle <==> forall r :: r in log.results ==> r == Done)
  }

  const NO_ENTRY: ScanLog := ScanLog([[]], [], [])

  function Extended(log: ScanLog, after: seq<Delivered>, more: seq<Effect>, r: EntryResult): ScanLog
  {
    ScanLog(log.states + [after], log.effects + [more], log.results + [r])
  }

  function Joined(a: ScanLog, b: ScanLog): ScanLog
  {
    ScanLog(a.states + (if b.states == [] then [] else b.states[1..]), a.effects + b.effects, a.results + b.results)
  }

  lemma ScannedNone(cfg: Config, entries: seq<Entry>, connected: bool, before: seq<Delivered>)
    ensures Scanned(cfg, entries, connected, ScanLog([before], [], []), before, before, [])
  {
  }

  lemma ScannedMore(cfg: Config, entries: seq<Entry>, connected: bool, log: ScanLog, before: seq<Delivered>,
                    mid: seq<Delivered>, added: seq<Effect>, after: seq<Delivered>, more: seq<Effect>, r: EntryResult)
    requires Scanned(cfg, entries, connected, log, before, mid, added) && |log.results| < |entries| && !AnyFailed(log)
    requires Handled(cfg, entries[|log.results|], connected, mid, after, more, r)
    ensures Scanned(cfg, entries, connected, Extended(log, after, more, r), before, after, added + more)
  {
    hide Handled, Flatten;
    FlattenAppend(log.effects, [more]);
    assert Flatten([more]) == more by { OnePiece(more); }
  }

  lemma OnePiece(more: seq<Effect>)
    ensures Flatten([more]) == more
  {
    assert [more][1..] == [] && more + [] == more;
  }

  lemma ScannedBoth(cfg: Config, es: seq<Entry>, fs: seq<Entry>, connected: bool, a: ScanLog, b: ScanLog, before: seq<Delivered>,
                    mid: seq<Delivered>, after: seq<Delivered>, added: seq<Effect>, more: seq<Effect>)
    requires Scanned(cfg, es, connected, a, before, mid, added) && |a.results| == |es| && !AnyFailed(a)
    requires Scanned(cfg, fs, connected, b, mid, after, more)
    ensures Scanned(cfg, es + fs, connected, Joined(a, b), before, after, added + more)
  {
    hide Handled, Flatten;
    FlattenAppend(a.effects, b.effects);
  }

  lemma ScannedWithin(cfg: Config, es: seq<Entry>, all: seq<Entry>, connected: bool, log: ScanLog, before: seq<Delivered>,
                      after: seq<Delivered>, added: seq<Effect>)
    requires Scanned(cfg, es, connected, log, before, after, added) && es <= all
    ensures Scanned(cfg, all, connected, log, before, after, added)
  {
    hide Handled, Flatten;
  }

  lemma {:induction false} EntriesConcat(a: seq<Option<seq<Entry>>>, b: seq<Option<seq<Entry>>>)
    ensures Entries(a + b) == Entries(a) + Entries(b)
  {
    if a == [] {
      assert a + b == b;
    } else {
      assert (a + b)[1..] == a[1..] + b;
      EntriesConcat(a[1..], b);
    }
  }

  lemma NextListing(listings: seq<Option<seq<Entry>>>, d: nat)
    requires d < |listings|
    ensures Entries(listings[..d + 1])
         == match listings[d] case Some(es) => Entries(listings[..d]) + es case None => Entries(listings[..d])
    ensures Entries(listings[..d + 1]) <= Entries(listings)
  {
    var upTo, next, rest := listings[..d], listings[d], listings[d + 1..];
    CutAt(listings, d);
    OneListing(next);
    EntriesConcat(upTo, [next]);
    EntriesConcat(listings[..d + 1], rest);
    hide *;
    EmptyEnd(Entries(upTo));
  }

  lemma CutAt<T>(s: seq<T>, d: nat)
    requires d < |s|
    ensures s[..d + 1] == s[..d] + [s[d]] && s == s[..d + 1] + s[d + 1..]
  {
  }

  lemma EmptyEnd<T>(s: seq<T>)
    ensures s + [] == s
  {
  }

  lemma OneListing(listing: Option<seq<Entry>>)
    ensures Entries([listing]) == match listing case Some(es) => es case None => []
  {
    assert [listing][1..] == [];
  }

  /** `scan_and_publish` over the listings of the configured directories (None for one
      that cannot be read). The outcome is meaningful: an idle scan left nothing
      undelivered that could be sent, and a retry is asked for only when some listed
      record is still undelivered. And everything the scan did is explained by a listed
      record: no other file goes, nothing but its own bytes is sent under its id. */
  method ScanAndPublish(cfg: Config, listings: seq<Option<seq<Entry>>>, connected: bool, world: World, state: State)
    returns (outcome: ScanOutcome, ghost added: seq<Effect>, ghost log: ScanLog)
    requires cfg.Valid() && Consistent(cfg, world.trace, state.delivered)
    modifies world, state
    ensures Consistent(cfg, world.trace, state.delivered)
    ensures world.trace == old(world.trace) + added && old(state.delivered) <= state.delivered
    ensures Scanned(cfg, Entries(listings), connected, log, old(state.delivered), state.delivered, added)
    ensures ScanEnds(Entries(listings), log, outcome)
    ensures AllExplained(cfg, listings, connected, state.delivered, added)
    ensures outcome == Idle ==> AllDealt(cfg, listings, connected, state.delivered)
    ensures outcome == RetrySoon ==> SomeWaiting(cfg, listings, state.delivered)
  {
    hide Consistent, Candidate, IdOf, Dealt, Waiting, Explains, Handled, AllExplained, SomeWaiting, Scanned, Entries,
      AllDealt, DealtAll, Joined, AnyFailed, ScanEnds;
    added, log := [], ScanLog([state.delivered], [], []);
    NothingToExplain(cfg, listings, connected, state.delivered);
    ScannedNone(cfg, Entries(listings[..0]), connected, state.delivered);
    NoListings();
    NoneYet(cfg, listings, connected, state.delivered);
    assert listings[..0] == [];
    var deferred := 0;
    for d := 0 to |listings|
      invariant Consistent(cfg, world.trace, state.delivered)
      invariant world.trace == old(world.trace) + added && old(state.delivered) <= state.delivered
      invariant AllExplained(cfg, listings, connected, state.delivered, added)
      invariant connected ==> deferred == 0
      invariant deferred == 0 ==> AllDealt(cfg, listings[..d], connected, state.delivered)
      invariant deferred > 0 ==> SomeWaiting(cfg, listings, state.delivered)
      invariant Scanned(cfg, Entries(listings[..d]), connected, log, old(state.delivered), state.delivered, added)
      invariant |log.results| == |Entries(listings[..d])| && !AnyFailed(log) && (deferred > 0 <==> Deferred in log.results)
    {
      NextListing(listings, d);
      if listings[d].Some? {
        var failed;
        ghost var more, part, before := [], NO_ENTRY, state.delivered;
        failed, deferred, more, part := ScanDirectory(cfg, listings, d, connected, deferred, world, state, added);
        ScannedBoth(cfg, Entries(listings[..d]), listings[d].value, connected, log, part, old(state.delivered), before,
                    state.delivered, added, more);
        ghost var log0 := log;
        added, log := added + more, Joined(log, part);
        AllDealtStays(cfg, listings[..d], connected, before, state.delivered);
        JoinedResults(log0, part);
        if failed {
          ScannedWithin(cfg, Entries(listings[..d + 1]), Entries(listings), connected, log, old(state.delivered),
                        state.delivered, added);
          FailedEnds(Entries(listings), log);
          return RetrySoon, added, log;
        }
      }
      NextDealt(cfg, listings, d, connected, state.delivered);
    }
    assert listings[..|listings|] == listings;
    GoneThrough(Entries(listings), log);
    outcome := if deferred > 0 then RetrySoon else Idle;
  }

  lemma NoListings()
    ensures Entries([]) == []
  {
  }

  lemma JoinedResults(a: ScanLog, b: ScanLog)
    ensures Joined(a, b).results == a.results + b.results
    ensures AnyFailed(Joined(a, b)) <==> AnyFailed(a) || AnyFailed(b)
  {
  }

  lemma FailedEnds(entries: seq<Entry>, log: ScanLog)
    requires AnyFailed(log)
    ensures ScanEnds(entries, log, RetrySoon)
  {
  }

  lemma GoneThrough(entries: seq<Entry>, log: ScanLog)
    requires |log.results| == |entries| && !AnyFailed(log)
    ensures ScanEnds(entries, log, if Deferred in log.results then RetrySoon else Idle)
  {
    forall r | r in log.results && r != Done ensures r == Deferred {
    }
  }

  lemma NextDealt(cfg: Config, listings: seq<Option<seq<Entry>>>, d: nat, connected: bool, delivered: seq<Delivered>)
    requires d < |listings|
    ensures AllDealt(cfg, listings[..d], connected, delivered)
         && (listings[d].Some? ==> DealtAll(cfg, connected, delivered, listings[d].value))
        ==> AllDealt(cfg, listings[..d + 1], connected, delivered)
  {
    hide DealtAll;
  }

  lemma NoneYet(cfg: Config, listings: seq<Option<seq<Entry>>>, connected: bool, delivered: seq<Delivered>)
    ensures AllDealt(cfg, listings[..0], connected, delivered)
    ensures !AnyFailed(ScanLog([delivered], [], []))
  {
  }

  lemma NothingToExplain(cfg: Config, listings: seq<Option<seq<Entry>>>, connected: bool, delivered: seq<Delivered>)
    ensures AllExplained(cfg, listings, connected, delivered, [])
  {
  }

  lemma AllDealtStays(cfg: Config, listings: seq<Option<seq<Entry>>>, connected: bool, before: seq<Delivered>, after: seq<Delivered>)
    requires before <= after
    ensures AllDealt(cfg, listings, connected, before) ==> AllDealt(cfg, listings, connected, after)
  {
    hide Dealt;
    DealtStays(cfg, connected, before, after);
  }

  lemma WaitingListed(cfg: Config, listings: seq<Option<seq<Entry>>>, d: nat, i: nat, delivered: seq<Delivered>)
    requires d < |listings| && listings[d].Some? && i < |listings[d].value|
    ensures Listed(listings, listings[d].value[i])
    ensures Waiting(cfg, delivered, listings[d].value[i]) ==> SomeWaiting(cfg, listings, delivered)
  {
    hide Waiting;
  }

  /** The inner loop: the entries of one directory. */
  method ScanDirectory(cfg: Config, listings: seq<Option<seq<Entry>>>, d: nat, connected: bool, deferred: nat, world: World,
                       state: State, ghost sofar: seq<Effect>)
    returns (failed: bool, deferred': nat, ghost added: seq<Effect>, ghost log: ScanLog)
    requires cfg.Valid() && Consistent(cfg, world.trace, state.delivered) && d < |listings| && listings[d].Some?
    requires AllExplained(cfg, listings, connected, state.delivered, sofar)
    requires connected ==> deferred == 0
    requires deferred > 0 ==> SomeWaiting(cfg, listings, state.delivered)
    modifies world, state
    ensures Consistent(cfg, world.trace, state.delivered)
    ensures world.trace == old(world.trace) + added && old(state.delivered) <= state.delivered
    ensures AllExplained(cfg, listings, connected, state.delivered, sofar + added)
    ensures connected ==> deferred' == 0
    ensures deferred' >= deferred
    ensures !failed && deferred' == 0 ==> DealtAll(cfg, connected, state.delivered, listings[d].value)
    ensures failed || deferred' > 0 ==> SomeWaiting(cfg, listings, state.delivered)
    ensures Scanned(cfg, listings[d].value, connected, log, old(state.delivered), state.delivered, added)
    ensures (failed <==> AnyFailed(log)) && (!failed ==> |log.results| == |listings[d].value|)
    ensures deferred' > deferred <==> Deferred in log.results
  {
    hide Consistent, Candidate, IdOf, Dealt, Waiting, Explains, Handled, AllExplained, SomeWaiting, Listed, Scanned;
    var entries := listings[d].value;
    deferred', added, log := deferred, [], ScanLog([state.delivered], [], []);
    ScannedNone(cfg, entries, connected, state.delivered);
    assert sofar + [] == sofar;
    for i := 0 to |entries|
      invariant Consistent(cfg, world.trace, state.delivered)
      invariant world.trace == old(world.trace) + added && old(state.delivered) <= state.delivered
      invariant AllExplained(cfg, listings, connected, state.delivered, sofar + added)
      invariant (connected ==> deferred' == 0) && deferred' >= deferred
      invariant !connected ==> state.delivered == old(state.delivered)
      invariant deferred' == 0 ==> DealtAll(cfg, connected, state.delivered, entries[..i])
      invariant deferred' > 0 ==> SomeWaiting(cfg, listings, state.delivered)
      invariant Scanned(cfg, entries, connected, log, old(state.delivered), state.delivered, added)
      invariant |log.results| == i && !AnyFailed(log) && (deferred' > deferred <==> Deferred in log.results)
    {
      ghost var before := state.delivered;
      var r;
      ghost var more;
      r, more := HandleEntry(cfg, entries[i], connected, world, state);
      HandledExplained(cfg, entries[i], connected, before, state.delivered, more, r);
      ScannedMore(cfg, entries, connected, log, old(state.delivered), before, added, state.delivered, more, r);
      log := Extended(log, state.delivered, more, r);
      WaitingListed(cfg, listings, d, i, state.delivered);
      MoreExplained(cfg, listings, connected, before, state.delivered, sofar + added, entries[i], more);
      assert (sofar + added) + more == sofar + (added + more);
      added := added + more;
      DealtStays(cfg, connected, before, state.delivered);
      assert entries[..i + 1] == entries[..i] + [entries[i]];
      if r == Failed {
        return true, deferred', added, log;
      }
      if r == Deferred {
        deferred' := deferred' + 1;
      }
    }
    assert entries[..|entries|] == entries;
    failed := false;
  }

  // ---- a whole life of the task -------------------------------------------------------------------

  lemma StartConsistent(cfg: Config, trace: seq<Effect>, now: nat)
    requires AllLegal(cfg, trace)
    ensures Consistent(cfg, trace + [Started(now)], Prune(OnFile(trace), now))
  {
    hide FullySent;
    AppendLegal(cfg, trace, Started(now));
    assert (trace + [Started(now)])[..|trace|] == trace;
    forall r | r in OnFile(trace) ensures FullySent(cfg, trace + [Started(now)], r.id) {
      OnFileFullySent(cfg, trace, r);
      FullySentGrows(cfg, trace, [Started(now)], r.id);
    }
  }

  /** A scan: the listings of the directories, and whether the link was up. */
  datatype Scan = Scan(listings: seq<Option<seq<Entry>>>, connected: bool)

  /** Every effect of a life is its start or explained by a record listed in one of its
      scans. */
  ghost predicate LifeExplained(cfg: Config, scans: seq<Scan>, delivered: seq<Delivered>, added: seq<Effect>)
  {
    forall eff :: eff in added ==> eff.Started? || ScansExplain(cfg, scans, delivered, eff)
  }

  ghost predicate ScansExplain(cfg: Config, scans: seq<Scan>, delivered: seq<Delivered>, eff: Effect)
  {
    exists i :: 0 <= i < |scans| && ExplainedBy(cfg, scans[i].listings, scans[i].connected, delivered, eff)
  }

  lemma ScanExplained(cfg: Config, scans: seq<Scan>, i: nat, before: seq<Delivered>, after: seq<Delivered>,
                      added: seq<Effect>, more: seq<Effect>)
    requires i < |scans| && before <= after && LifeExplained(cfg, scans, before, added)
    requires AllExplained(cfg, scans[i].listings, scans[i].connected, after, more)
    ensures LifeExplained(cfg, scans, after, added + more)
  {
    hide Explains, Listed;
    forall eff | eff in added + more ensures eff.Started? || ScansExplain(cfg, scans, after, eff) {
      if eff in more {
        assert ExplainedBy(cfg, scans[i].listings, scans[i].connected, after, eff);
      } else if !eff.Started? {
        var k :| 0 <= k < |scans| && ExplainedBy(cfg, scans[k].listings, scans[k].connected, before, eff);
        var e :| Listed(scans[k].listings, e) && Explains(cfg, e, scans[k].connected, before, eff);
        ExplainsStays(cfg, e, scans[k].connected, before, after, eff);
        assert ExplainedBy(cfg, scans[k].listings, scans[k].connected, after, eff);
      }
    }
  }

  /** A whole life: when it started, what was remembered before the first scan and after
      each, and what each scan did. */
  datatype Life = Life(now: nat, states: seq<seq<Delivered>>, effects: seq<seq<Effect>>, logs: seq<ScanLog>)

  ghost predicate ScanDone(cfg: Config, scan: Scan, log: ScanLog, before: seq<Delivered>, after: seq<Delivered>, added: seq<Effect>)
  {
    && Scanned(cfg, Entries(scan.listings), scan.connected, log, before, after, added)
    && (|log.results| == |Entries(scan.listings)| || AnyFailed(log))
  }

  /** The life began with what was on file and not too old, and then made these scans in order. */
  ghost predicate Lived(cfg: Config, scans: seq<Scan>, file: seq<Delivered>, life: Life, delivered: seq<Delivered>, added: seq<Effect>)
  {
    && |life.logs| == |life.effects| == |scans| && |life.states| == |scans| + 1
    && life.states[0] == Prune(file, life.now) && life.states[|scans|] == delivered
    && added == [Started(life.now)] + Flatten(life.effects)
    && forall i :: 0 <= i < |scans| ==>
         ScanDone(cfg, scans[i], life.logs[i], life.states[i], life.states[i + 1], life.effects[i])
  }

  lemma LivedMore(cfg: Config, scans: seq<Scan>, scan: Scan, file: seq<Delivered>, life: Life, mid: seq<Delivered>,
                  added: seq<Effect>, log: ScanLog, after: seq<Delivered>, more: seq<Effect>)
    requires Lived(cfg, scans, file, life, mid, added) && ScanDone(cfg, scan, log, mid, after, more)
    ensures Lived(cfg, scans + [scan], file, Life(life.now, life.states + [after], life.effects + [more], life.logs + [log]),
                  after, added + more)
  {
    hide ScanDone, Flatten, Prune;
    FlattenAppend(life.effects, [more]);
    OnePiece(more);
    ConcatAssoc([Started(life.now)], Flatten(life.effects), more);
  }

  lemma LivedNone(cfg: Config, file: seq<Delivered>, now: nat)
    ensures Lived(cfg, [], file, Life(now, [Prune(file, now)], [], []), Prune(file, now), [Started(now)])
  {
  }

  /** `run`: load what is on file and prune it, then scan until shutdown, whatever
      trace earlier lives and crashes have left. */
  method Run(cfg: Config, world: World, scans: seq<Scan>)
    returns (delivered: seq<Delivered>, ghost added: seq<Effect>, ghost life: Life)
    requires cfg.Valid() && AllLegal(cfg, world.trace)
    modifies world
    ensures AllLegal(cfg, world.trace) && world.trace == old(world.trace) + added
    ensures added != [] && added[0].Started? && LifeExplained(cfg, scans, delivered, added)
    ensures Lived(cfg, scans, OnFile(old(world.trace)), life, delivered, added)
  {
    hide AllLegal, LifeExplained, AllExplained, Lived, Scanned, Entries, AnyFailed;
    var loaded := world.LoadState();
    var state := new State(loaded);
    var now: nat := *;
    StartConsistent(cfg, world.trace, now);
    state.PruneOld(now);
    world.trace := world.trace + [Started(now)];
    added, life := [Started(now)], Life(now, [state.delivered], [], []);
    LivedNone(cfg, loaded, now);
    assert scans[..0] == [];
    StartExplained(cfg, scans, state.delivered, now);
    for i := 0 to |scans|
      invariant Consistent(cfg, world.trace, state.delivered)
      invariant world.trace == old(world.trace) + added && added != [] && added[0].Started?
      invariant LifeExplained(cfg, scans, state.delivered, added)
      invariant Lived(cfg, scans[..i], loaded, life, state.delivered, added)
    {
      hide Consistent;
      ghost var before := state.delivered;
      var outcome;
      ghost var more, log := [], NO_ENTRY;
      outcome, more, log := ScanAndPublish(cfg, scans[i].listings, scans[i].connected, world, state);
      ScanExplained(cfg, scans, i, before, state.delivered, added, more);
      LivedMore(cfg, scans[..i], scans[i], loaded, life, before, added, log, state.delivered, more);
      assert scans[..i + 1] == scans[..i] + [scans[i]];
      life := Life(life.now, life.states + [state.delivered], life.effects + [more], life.logs + [log]);
      added := added + more;
    }
    assert scans[..|scans|] == scans;
    delivered := state.delivered;
  }

  lemma StartExplained(cfg: Config, scans: seq<Scan>, delivered: seq<Delivered>, now: nat)
    ensures LifeExplained(cfg, scans, delivered, [Started(now)])
  {
  }

  /** Any number of lives one after the other, each cut short by a crash at any point: the
      law holds of the whole trace, so the theorems about lawful traces do. */
  method Lives(cfg: Config, world: World, lives: seq<seq<Scan>>)
    requires cfg.Valid() && AllLegal(cfg, world.trace)
    modifies world
    ensures AllLegal(cfg, world.trace) && old(world.trace) <= world.trace
    ensures forall k :: |old(world.trace)| <= k < |world.trace| ==> LivesExplain(cfg, lives, world.trace[k])
  {
    hide AllLegal, LifeExplained, LivesExplain;
    for i := 0 to |lives|
      invariant AllLegal(cfg, world.trace) && old(world.trace) <= world.trace
      invariant forall k :: |old(world.trace)| <= k < |world.trace| ==> LivesExplain(cfg, lives, world.trace[k])
    {
      ghost var before := world.trace;
      var since := |world.trace|;
      var delivered;
      ghost var added, life;
      delivered, added, life := Run(cfg, world, lives[i]);
      ghost var whole := world.trace;
      world.Crash(since);
      CrashKeepsLegal(cfg, whole, |world.trace|);
      forall k | since <= k < |world.trace| ensures LivesExplain(cfg, lives, world.trace[k]) {
        assert world.trace[k] == added[k - since];
        LifeInLives(cfg, lives, i, delivered, added, k - since);
      }
      assert forall k :: 0 <= k < since ==> world.trace[k] == before[k];
    }
  }

  ghost predicate LivesExplain(cfg: Config, lives: seq<seq<Scan>>, eff: Effect)
  {
    eff.Started? || exists i, delivered :: 0 <= i < |lives| && ScansExplain(cfg, lives[i], delivered, eff)
  }

  lemma LifeInLives(cfg: Config, lives: seq<seq<Scan>>, i: nat, delivered: seq<Delivered>, added: seq<Effect>, k: nat)
    requires i < |lives| && LifeExplained(cfg, lives[i], delivered, added) && k < |added|
    ensures LivesExplain(cfg, lives, added[k])
  {
    hide ScansExplain;
  }

  // ---- when the file removed is the one that was sent ----------------------------------------------------

  /** The content that would be sent for a record. */
  ghost predicate Sendable(cfg: Config, e: Entry)
  {
    Candidate(cfg, e) && e.data.Some? && Capped(e.data.value, cfg.maxBytes) != []
  }

  /** Records with one id are one file: a record that can be sent shares its id only with
      records at its own path, and with the same content if they can be sent. */
  ghost predicate OneFilePerId(cfg: Config, records: iset<Entry>)
  {
    forall e, f :: e in records && f in records && Sendable(cfg, e) && Candidate(cfg, f) && IdOf(e) == IdOf(f) ==>
      SameFile(cfg, e, f)
  }

  ghost predicate SameFile(cfg: Config, e: Entry, f: Entry)
    requires Sendable(cfg, e)
  {
    && e.path == f.path
    && (Sendable(cfg, f) ==> Capped(e.data.value, cfg.maxBytes) == Capped(f.data.value, cfg.maxBytes))
  }

  /** Everything in the trace but the starts is explained by one of these records. */
  ghost predicate ExplainedByRecords(cfg: Config, records: iset<Entry>, trace: seq<Effect>)
  {
    forall k :: 0 <= k < |trace| ==> trace[k].Started? || RecordExplains(cfg, records, trace[k])
  }

  ghost predicate RecordExplains(cfg: Config, records: iset<Entry>, eff: Effect)
  {
    exists e, connected, delivered :: e in records && Explains(cfg, e, connected, delivered, eff)
  }

  /** The file at this path was itself read and sent, completely, with the content that the
      records at this path with this id have; and what was sent rebuilds it. */
  ghost predicate OwnSent(cfg: Config, records: iset<Entry>, history: seq<Effect>, path: string, id: nat)
  {
    exists i: nat :: OwnUpload(cfg, records, history, path, id, i)
  }

  ghost predicate OwnUpload(cfg: Config, records: iset<Entry>, history: seq<Effect>, path: string, id: nat, i: nat)
  {
    && UploadAt(cfg, history, id, i) && history[i].path == path
    && Reassemble(Messages(id, history[i].content, cfg.chunkBytes, cfg.buildId)) == Some(history[i].content)
    && forall f :: f in records && Sendable(cfg, f) && f.path == path && IdOf(f) == id ==>
         && history[i].content <= f.data.value
         && |history[i].content| == (if |f.data.value| < cfg.maxBytes then |f.data.value| else cfg.maxBytes)
  }

  /** In every lawful trace explained by these records, a file goes only after it was sent
      itself. */
  ghost predicate FilesGoSent(cfg: Config, records: iset<Entry>)
  {
    forall trace: seq<Effect>, k: nat :: AllLegal(cfg, trace) && ExplainedByRecords(cfg, records, trace) && k < |trace| && trace[k].Removed? ==>
      OwnSent(cfg, records, trace[..k], trace[k].path, trace[k].id)
  }

  lemma RemovedWasSent(cfg: Config, records: iset<Entry>, trace: seq<Effect>, k: nat)
    requires cfg.Valid() && (cfg.deleteAfterCapture ==> OneFilePerId(cfg, records))
    requires AllLegal(cfg, trace) && ExplainedByRecords(cfg, records, trace) && k < |trace| && trace[k].Removed?
    ensures OwnSent(cfg, records, trace[..k], trace[k].path, trace[k].id)
  {
    hide IdOf, Capped, MatchesKind, Messages, Reassemble, Carries, AllLegal;
    var id := trace[k].id;
    var i, ms := RemovedIsRecoverable(cfg, trace, k);
    assert trace[..k][i] == trace[i] && trace[i].content != [];
    assert RecordExplains(cfg, records, trace[k]) && RecordExplains(cfg, records, trace[i]);
    var f, c1, d1 :| f in records && Explains(cfg, f, c1, d1, trace[k]);
    var e, c2, d2 :| e in records && Explains(cfg, e, c2, d2, trace[i]);
    assert Sendable(cfg, e) && SameFile(cfg, e, f);
    forall g | g in records && Sendable(cfg, g) && g.path == f.path && IdOf(g) == id
      ensures trace[i].content <= g.data.value
      ensures |trace[i].content| == if |g.data.value| < cfg.maxBytes then |g.data.value| else cfg.maxBytes
    {
      assert SameFile(cfg, e, g);
      CappedIsFirstBytes(g.data.value, cfg.maxBytes);
    }
    assert OwnUpload(cfg, records, trace[..k], trace[k].path, id, i);
  }

  lemma {:induction false} SendsLegal(cfg: Config, start: seq<Effect>, id: nat, ms: seq<Message>, delivered: seq<Delivered>, i: nat)
    requires Consistent(cfg, start, delivered) && id !in Ids(delivered) && i <= |ms|
    requires forall j :: 0 <= j < |ms| ==> ms[j].id == id
    ensures Consistent(cfg, start + Sends(ms)[..i], delivered)
  {
    hide Consistent, Legal;
    if i == 0 {
      assert start + Sends(ms)[..0] == start;
    } else {
      SendsLegal(cfg, start, id, ms, delivered, i - 1);
      PublishIsLegal(cfg, start + Sends(ms)[..i - 1], ms[i - 1], id, delivered);
      Append(cfg, start + Sends(ms)[..i - 1], Sends(ms)[i - 1], delivered);
      NextPrefix(start, Sends(ms), i - 1);
    }
  }

  lemma NothingYet(cfg: Config)
    ensures Consistent(cfg, [], [])
  {
  }

  lemma SaveLegal(cfg: Config, trace: seq<Effect>, id: nat, ts: nat)
    requires Consistent(cfg, trace, []) && FullySent(cfg, trace, id)
    ensures Consistent(cfg, trace + [Saved([Delivered(id, ts)])], [Delivered(id, ts)])
    ensures FullySent(cfg, trace + [Saved([Delivered(id, ts)])], id)
  {
    hide FullySent;
    var rs := [Delivered(id, ts)];
    AppendLegal(cfg, trace, Saved(rs));
    FullySentGrows(cfg, trace, [Saved(rs)], id);
    assert (trace + [Saved(rs)])[..|trace|] == trace;
  }

  /** A whole upload on a fresh device: read, sent, saved, removed. */
  lemma UploadLegal(cfg: Config, path: string, id: nat, content: seq<Byte>, time: nat) returns (added: seq<Effect>, delivered: seq<Delivered>)
    requires content != []
    ensures delivered == [Delivered(id, time)] && Consistent(cfg, added, delivered) && FullySent(cfg, added, id)
    ensures added == [ReadRecord(path, id, content)] + Sends(Messages(id, content, cfg.chunkBytes, cfg.buildId))
                   + [Saved(delivered)] + [Removed(path, id)]
  {
    var ms := Messages(id, content, cfg.chunkBytes, cfg.buildId);
    assert forall j :: 0 <= j < |ms| ==> ms[j].id == id;
    NothingYet(cfg);
    var read := [ReadRecord(path, id, content)];
    assert [] + read == read && id !in Ids([]);
    hide *;
    ReadIsLegal(cfg, [], path, id, content, []);
    Append(cfg, [], read[0], []);
    SendsLegal(cfg, read, id, ms, [], |ms|);
    assert Sends(ms)[..|ms|] == Sends(ms);
    SentNow(cfg, read, path, id, content);
    SaveLegal(cfg, read + Sends(ms), id, time);
    delivered := [Delivered(id, time)];
    RemoveLegal(cfg, read + Sends(ms) + [Saved(delivered)], path, id, delivered);
    added := read + Sends(ms) + [Saved(delivered)] + [Removed(path, id)];
  }

  lemma UploadShape(cfg: Config, path: string, id: nat, content: seq<Byte>, time: nat, delivered: seq<Delivered>, added: seq<Effect>)
    requires cfg.deleteAfterCapture && delivered == [Delivered(id, time)]
    requires added == [ReadRecord(path, id, content)] + Sends(Messages(id, content, cfg.chunkBytes, cfg.buildId))
                    + [Saved(delivered)] + [Removed(path, id)]
    ensures Uploaded(cfg, path, id, content, time, [], delivered, added, Done)
    ensures added[0] == ReadRecord(path, id, content) && forall k :: 0 < k < |added| ==> !added[k].ReadRecord?
  {
    hide Messages;
    assert IsRemoval(cfg, path, id, [Removed(path, id)]);
  }

  /** That is what the scan does for a record that can be sent. */
  lemma OneUpload(cfg: Config, e: Entry) returns (added: seq<Effect>, delivered: seq<Delivered>)
    requires cfg.Valid() && cfg.deleteAfterCapture && Sendable(cfg, e)
    ensures Consistent(cfg, added, delivered) && FullySent(cfg, added, IdOf(e)) && delivered == [Delivered(IdOf(e), e.time)]
    ensures Handled(cfg, e, true, [], delivered, added, Done)
    ensures added != [] && added[0] == ReadRecord(e.path, IdOf(e), Capped(e.data.value, cfg.maxBytes))
    ensures forall k :: 0 < k < |added| ==> !added[k].ReadRecord?
  {
    hide IdOf, Capped, MatchesKind, Messages, FullySent, Consistent, Uploaded;
    added, delivered := UploadLegal(cfg, e.path, IdOf(e), Capped(e.data.value, cfg.maxBytes), e.time);
    UploadShape(cfg, e.path, IdOf(e), Capped(e.data.value, cfg.maxBytes), e.time, delivered, added);
  }

  lemma RemoveLegal(cfg: Config, trace: seq<Effect>, path: string, id: nat, delivered: seq<Delivered>)
    requires Consistent(cfg, trace, delivered) && FullySent(cfg, trace, id)
    ensures Consistent(cfg, trace + [Removed(path, id)], delivered) && FullySent(cfg, trace + [Removed(path, id)], id)
  {
    hide FullySent;
    Append(cfg, trace, Removed(path, id), delivered);
    FullySentGrows(cfg, trace, [Removed(path, id)], id);
  }

  lemma FirstBytesUnique(content: seq<Byte>, data: seq<Byte>, maxBytes: nat)
    requires content <= data && |content| == if |data| < maxBytes then |data| else maxBytes
    ensures content == Capped(data, maxBytes)
  {
  }

  /** Two records that share an id without being one file: the second is taken for delivered
      and removed although only the first was read and sent. Both steps are the scan's own. */
  lemma SecondRecordGoesUnsent(cfg: Config, records: iset<Entry>, e: Entry, f: Entry)
    returns (first: seq<Effect>, delivered: seq<Delivered>, second: seq<Effect>)
    requires cfg.Valid() && cfg.deleteAfterCapture && e in records && f in records
    requires Sendable(cfg, e) && Candidate(cfg, f) && IdOf(e) == IdOf(f) && !SameFile(cfg, e, f)
    ensures Handled(cfg, e, true, [], delivered, first, Done)
    ensures Handled(cfg, f, true, delivered, delivered, second, Done) && second == [Removed(f.path, IdOf(f))]
    ensures AllLegal(cfg, first + second) && ExplainedByRecords(cfg, records, first + second)
    ensures !OwnSent(cfg, records, first, f.path, IdOf(f))
  {
    var id := IdOf(e);
    first, delivered := OneUpload(cfg, e);
    second := [Removed(f.path, id)];
    assert Delivered(id, e.time) in delivered && id in Ids(delivered);
    assert IsRemoval(cfg, f.path, id, second);
    HandledExplained(cfg, e, true, [], delivered, first, Done);
    HandledExplained(cfg, f, true, delivered, delivered, second, Done);
    ReadOnlyFirst(cfg, records, e, f, first);
    hide *;
    RemoveLegal(cfg, first, f.path, id, delivered);
    BothExplain(cfg, records, e, f, first, second, delivered);
    ConsistentIsLegal(cfg, first + second, delivered);
  }

  lemma ConsistentIsLegal(cfg: Config, trace: seq<Effect>, delivered: seq<Delivered>)
    requires Consistent(cfg, trace, delivered)
    ensures AllLegal(cfg, trace)
  {
  }

  lemma BothExplain(cfg: Config, records: iset<Entry>, e: Entry, f: Entry, first: seq<Effect>, second: seq<Effect>,
                    delivered: seq<Delivered>)
    requires e in records && f in records
    requires forall eff :: eff in first ==> Explains(cfg, e, true, delivered, eff)
    requires forall eff :: eff in second ==> Explains(cfg, f, true, delivered, eff)
    ensures ExplainedByRecords(cfg, records, first + second)
  {
    hide Explains;
    forall k | 0 <= k < |first + second| ensures RecordExplains(cfg, records, (first + second)[k]) {
      if k < |first| {
        assert first[k] in first;
      } else {
        assert second[k - |first|] in second;
      }
    }
  }

  /** The only read is of e, so nothing says that f was read. */
  lemma ReadOnlyFirst(cfg: Config, records: iset<Entry>, e: Entry, f: Entry, first: seq<Effect>)
    requires f in records && Sendable(cfg, e) && Candidate(cfg, f) && IdOf(e) == IdOf(f) && !SameFile(cfg, e, f)
    requires first != [] && first[0] == ReadRecord(e.path, IdOf(e), Capped(e.data.value, cfg.maxBytes))
    requires forall k :: 0 < k < |first| ==> !first[k].ReadRecord?
    ensures !OwnSent(cfg, records, first, f.path, IdOf(f))
  {
    hide IdOf, Capped, MatchesKind, Messages, Reassemble;
    if Sendable(cfg, f) {
      var c, d, n := Capped(e.data.value, cfg.maxBytes), f.data.value, cfg.maxBytes;
      if c <= d && |c| == if |d| < n then |d| else n {
        FirstBytesUnique(c, d, n);
      }
    }
    forall i: nat | UploadAt(cfg, first, IdOf(f), i) ensures !OwnUpload(cfg, records, first, f.path, IdOf(f), i) {
      assert i == 0;
    }
  }

  /** A file goes only after it was read and sent itself, in every lawful trace that these
      records explain, if and only if nothing is ever deleted or records with one id are
      one file. In particular no two records may share a name and a modification time, as
      they do on a device without a clock. */
  lemma FilesGoSentIff(cfg: Config, records: iset<Entry>)
    requires cfg.Valid()
    ensures FilesGoSent(cfg, records) <==> !cfg.deleteAfterCapture || OneFilePerId(cfg, records)
  {
    hide MatchesKind, Capped, AllLegal, ExplainedByRecords, OwnSent, IdOf;
    if !cfg.deleteAfterCapture || OneFilePerId(cfg, records) {
      forall trace: seq<Effect>, k: nat |
        AllLegal(cfg, trace) && ExplainedByRecords(cfg, records, trace) && k < |trace| && trace[k].Removed?
        ensures OwnSent(cfg, records, trace[..k], trace[k].path, trace[k].id)
      {
        RemovedWasSent(cfg, records, trace, k);
      }
    } else {
      var e, f :| e in records && f in records && Sendable(cfg, e) && Candidate(cfg, f) && IdOf(e) == IdOf(f)
               && !SameFile(cfg, e, f);
      var first, delivered, second := SecondRecordGoesUnsent(cfg, records, e, f);
      var trace, k := first + second, |first|;
      assert trace[..k] == first && trace[k] == second[0];
    }
  }

  ghost predicate ListedIn(lives: seq<seq<Scan>>, e: Entry)
  {
    exists i, j :: 0 <= i < |lives| && 0 <= j < |lives[i]| && Listed(lives[i][j].listings, e)
  }

  ghost function RecordsOf(lives: seq<seq<Scan>>): iset<Entry> { iset e | ListedIn(lives, e) }

  /** What the lives of the task leave is such a trace, for the records they listed. */
  lemma LivesExplainedByRecords(cfg: Config, lives: seq<seq<Scan>>, trace: seq<Effect>)
    requires forall k :: 0 <= k < |trace| ==> LivesExplain(cfg, lives, trace[k])
    ensures ExplainedByRecords(cfg, RecordsOf(lives), trace)
  {
    hide Explains, Listed;
    var records := RecordsOf(lives);
    forall k | 0 <= k < |trace| ensures trace[k].Started? || RecordExplains(cfg, records, trace[k]) {
      assert LivesExplain(cfg, lives, trace[k]);
      if !trace[k].Started? {
        var i, delivered :| 0 <= i < |lives| && ScansExplain(cfg, lives[i], delivered, trace[k]);
        var j :| 0 <= j < |lives[i]| && ExplainedBy(cfg, lives[i][j].listings, lives[i][j].connected, delivered, trace[k]);
        var e :| Listed(lives[i][j].listings, e) && Explains(cfg, e, lives[i][j].connected, delivered, trace[k]);
        assert ListedIn(lives, e) && e in records;
      }
    }
  }
}
