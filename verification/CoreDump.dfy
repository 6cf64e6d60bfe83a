/** Crash dumps as message streams (src/sources/crashdump.rs:202-261, 277-283): how a
    record is cut into CORE_DUMP_CHUNK messages and what a receiver can rebuild. */
module CoreDump {
  import opened Prelude

  datatype Message = Message(id: nat, ordinal: nat, content: seq<Byte>, isLast: bool, buildId: Option<string>)

  /** `read_capped`. */
  function Capped(data: seq<Byte>, maxBytes: nat): seq<Byte>
  {
    if |data| > maxBytes then data[..maxBytes] else data
  }

  /** Capping keeps the first bytes, as many as there are up to the limit. */
  lemma CappedIsFirstBytes(data: seq<Byte>, maxBytes: nat)
    ensures Capped(data, maxBytes) <= data
    ensures |Capped(data, maxBytes)| == if |data| < maxBytes then |data| else maxBytes
    ensures |data| <= maxBytes ==> Capped(data, maxBytes) == data
  {
  }

  /** `chunk_bytes.max(1)`. */
  function ChunkBytes(k: nat): nat { if k > 1 then k else 1 }

  /** The messages of a dump from piece i on. */
  function MessagesFrom(id: nat, pieces: seq<seq<Byte>>, i: nat, buildId: Option<string>): (r: seq<Message>)
    requires i <= |pieces|
    ensures |r| == |pieces| - i
    ensures forall j :: 0 <= j < |r| ==> r[j] == Message(id, i + j, pieces[i + j], i + j == |pieces| - 1, buildId)
    decreases |pieces| - i
  {
    if i == |pieces| then []
    else [Message(id, i, pieces[i], i == |pieces| - 1, buildId)] + MessagesFrom(id, pieces, i + 1, buildId)
  }

  function Messages(id: nat, content: seq<Byte>, chunkBytes: nat, buildId: Option<string>): seq<Message>
  {
    MessagesFrom(id, Chunks(content, ChunkBytes(chunkBytes)), 0, buildId)
  }

  /** The piece is the slice of the content that starts at i * k. */
  ghost predicate SliceAt(content: seq<Byte>, k: nat, i: nat, piece: seq<Byte>)
  {
    && 0 <= i * k && i * k + |piece| <= |content| && |piece| > 0
    && piece == content[i * k..i * k + |piece|]
  }

  /** Ordinals run from 0 to ceil(len / chunkBytes) - 1, exactly the last message is
      flagged, every message carries the dump's id, the build id and the slice at its
      ordinal, and the contents concatenate to the dump. A size of zero counts as one. */
  lemma MessagesShape(id: nat, content: seq<Byte>, chunkBytes: nat, buildId: Option<string>)
    requires chunkBytes > 0
    ensures var ms := Messages(id, content, chunkBytes, buildId);
      && |ms| == Ceiling(|content|, chunkBytes)
      && (forall i :: 0 <= i < |ms| ==> ms[i].id == id && ms[i].ordinal == i && (ms[i].isLast <==> i == |ms| - 1))
      && (forall i :: 0 <= i < |ms| ==> ms[i].buildId == buildId)
      && (forall i :: 0 <= i < |ms| ==> SliceAt(content, chunkBytes, i, ms[i].content))
      && Flatten(Contents(ms)) == content
    ensures Messages(id, content, 0, buildId) == Messages(id, content, 1, buildId)
  {
    assert ChunkBytes(0) == ChunkBytes(1);
    assert ChunkBytes(chunkBytes) == chunkBytes;
    hide Chunks, Flatten, MessagesFrom, Contents, SliceAt, Ceiling, ChunkBytes;
    var pieces := Chunks(content, chunkBytes);
    PiecesShape(content, chunkBytes);
    FromPieces(id, pieces, buildId);
  }

  lemma FromPieces(id: nat, pieces: seq<seq<Byte>>, buildId: Option<string>)
    ensures var ms := MessagesFrom(id, pieces, 0, buildId);
      && Contents(ms) == pieces && |ms| == |pieces|
      && forall i :: 0 <= i < |ms| ==> ms[i] == Message(id, i, pieces[i], i == |pieces| - 1, buildId)
  {
    hide MessagesFrom, Contents;
  }

  lemma PiecesShape(content: seq<Byte>, chunkBytes: nat)
    requires chunkBytes > 0
    ensures var pieces := Chunks(content, chunkBytes);
      && |pieces| == Ceiling(|content|, chunkBytes) && Flatten(pieces) == content
      && forall i :: 0 <= i < |pieces| ==> SliceAt(content, chunkBytes, i, pieces[i])
  {
    hide Chunks, Flatten, Ceiling;
    var pieces := Chunks(content, chunkBytes);
    ChunksCount(content, chunkBytes);
    ChunksFlatten(content, chunkBytes);
    forall i | 0 <= i < |pieces| ensures SliceAt(content, chunkBytes, i, pieces[i]) {
      ChunkAt(content, chunkBytes, i);
    }
  }

  function Contents(ms: seq<Message>): (r: seq<seq<Byte>>)
    ensures |r| == |ms| && forall i :: 0 <= i < |r| ==> r[i] == ms[i].content
  {
    seq(|ms|, i requires 0 <= i < |ms| => ms[i].content)
  }

  // ---- a receiver -------------------------------------------------------------------------

  function FindOrdinal(received: seq<Message>, ordinal: nat): (r: Option<Message>)
    ensures r.Some? ==> r.value in received && r.value.ordinal == ordinal
    ensures r.None? ==> forall m :: m in received ==> m.ordinal != ordinal
  {
    if received == [] then None
    else if received[0].ordinal == ordinal then Some(received[0])
    else FindOrdinal(received[1..], ordinal)
  }

  function FindLast(received: seq<Message>): (r: Option<Message>)
    ensures r.Some? ==> r.value in received && r.value.isLast
    ensures r.None? ==> forall m :: m in received ==> !m.isLast
  {
    if received == [] then None
    else if received[0].isLast then Some(received[0])
    else FindLast(received[1..])
  }

  /** The first n pieces, in order of ordinal. */
  function Collect(received: seq<Message>, n: nat): Option<seq<seq<Byte>>>
  {
    if n == 0 then Some([])
    else
      match (Collect(received, n - 1), FindOrdinal(received, n - 1))
      case (Some(ps), Some(m)) => Some(ps + [m.content])
      case _ => None
  }

  /** What a receiver rebuilds from the messages it got, in whatever order. */
  function Reassemble(received: seq<Message>): Option<seq<Byte>>
  {
    match FindLast(received)
    case None => None
    case Some(last) =>
      match Collect(received, last.ordinal + 1)
      case None => None
      case Some(pieces) => Some(Flatten(pieces))
  }

  lemma {:induction false} CollectPrefix(received: seq<Message>, ms: seq<Message>, n: nat)
    requires n <= |ms| && forall i :: 0 <= i < n ==> FindOrdinal(received, i) == Some(ms[i])
    ensures Collect(received, n) == Some(Contents(ms)[..n])
  {
    hide FindOrdinal, Contents;
    if n > 0 {
      CollectPrefix(received, ms, n - 1);
      assert Contents(ms)[..n] == Contents(ms)[..n - 1] + [ms[n - 1].content];
    }
  }

  /** Any messages of attempts at one dump, partial or complete, in any order and with
      duplicates, rebuild exactly its content, provided none is missing. */
  lemma ReassemblesExactly(id: nat, content: seq<Byte>, chunkBytes: nat, buildId: Option<string>, received: seq<Message>)
    requires content != [] && chunkBytes > 0
    requires forall m :: m in received ==> m in Messages(id, content, chunkBytes, buildId)
    requires forall m :: m in Messages(id, content, chunkBytes, buildId) ==> m in received
    ensures Reassemble(received) == Some(content)
  {
    var ms := Messages(id, content, chunkBytes, buildId);
    MessagesShape(id, content, chunkBytes, buildId);
    hide Messages, Collect;
    assert ms[|ms| - 1] in received;
    var last := FindLast(received).value;
    forall i | 0 <= i < |ms| ensures FindOrdinal(received, i) == Some(ms[i]) {
      assert ms[i] in received;
    }
    CollectPrefix(received, ms, |ms|);
    assert Contents(ms)[..|ms|] == Contents(ms);
  }

  /** Attempts are prefixes of the message list, in the order they were sent. */
  ghost predicate IsAttempt(sent: seq<Message>, id: nat, content: seq<Byte>, chunkBytes: nat, buildId: Option<string>)
  {
    sent <= Messages(id, content, chunkBytes, buildId)
  }

  /** In particular, failed attempts followed by a complete one. */
  lemma RetriesReassemble(attempts: seq<seq<Message>>, id: nat, content: seq<Byte>, chunkBytes: nat, buildId: Option<string>)
    requires content != [] && chunkBytes > 0 && attempts != []
    requires forall i :: 0 <= i < |attempts| ==> IsAttempt(attempts[i], id, content, chunkBytes, buildId)
    requires Messages(id, content, chunkBytes, buildId) in attempts
    ensures Reassemble(Flatten(attempts)) == Some(content)
  {
    var ms := Messages(id, content, chunkBytes, buildId);
    hide Messages;
    forall m ensures m in Flatten(attempts) <==> exists i :: 0 <= i < |attempts| && m in attempts[i] {
      InFlatten(attempts, m);
    }
    ReassemblesExactly(id, content, chunkBytes, buildId, Flatten(attempts));
  }

  lemma {:induction false} InFlatten<T>(ss: seq<seq<T>>, x: T)
    ensures x in Flatten(ss) <==> exists i :: 0 <= i < |ss| && x in ss[i]
  {
    if ss != [] {
      InFlatten(ss[1..], x);
      if x in Flatten(ss[1..]) {
        var i :| 0 <= i < |ss[1..]| && x in ss[1..][i];
        assert x in ss[i + 1];
      }
      if exists i :: 0 <= i < |ss| && x in ss[i] {
        var i :| 0 <= i < |ss| && x in ss[i];
        assert i > 0 ==> ss[1..][i - 1] == ss[i];
      }
    }
  }
}
