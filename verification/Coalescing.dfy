/** The streaming of a response body: small frames are joined into chunks. */
module Coalescing {
  import opened Basics
  import opened Bytes

  const MIN_STREAM_COALESCE_TARGET: nat := 4096

  /** A frame of data, or one that carries none. */
  datatype Frame = Data(bytes: Text) | Trailers

  /** How the frames end. */
  datatype End = Clean | Fails | Aborted

  /** What the stream of a body carries. */
  datatype Chunk = Chunk(bytes: Text) | Failure

  function BodyOf(frames: seq<Frame>): Text {
    if frames == [] then []
    else BodyOf(frames[..|frames| - 1]) + if frames[|frames| - 1].Data? then frames[|frames| - 1].bytes else []
  }

  /** The bytes that arrive before the first failure. */
  function Received(chunks: seq<Chunk>): Text {
    if chunks == [] || chunks[0].Failure? then [] else chunks[0].bytes + Received(chunks[1..])
  }

  predicate Unbroken(chunks: seq<Chunk>) {
    forall i :: 0 <= i < |chunks| ==> chunks[i].Chunk?
  }

  lemma {:induction false} ReceivedPush(chunks: seq<Chunk>, last: Chunk)
    ensures Unbroken(chunks) ==> Received(chunks + [last]) == Received(chunks) + if last.Chunk? then last.bytes else []
    ensures !Unbroken(chunks) ==> Received(chunks + [last]) == Received(chunks)
  {
    if chunks != [] {
      assert (chunks + [last])[1..] == chunks[1..] + [last];
      ReceivedPush(chunks[1..], last);
      assert Unbroken(chunks) <==> chunks[0].Chunk? && Unbroken(chunks[1..]) by {
        assert chunks == [chunks[0]] + chunks[1..];
      }
    }
  }

  /** All chunks reach the target. */
  predicate Full(chunks: seq<Chunk>, target: nat) {
    forall i :: 0 <= i < |chunks| ==> chunks[i].Chunk? && |chunks[i].bytes| >= target
  }

  predicate FullButLast(chunks: seq<Chunk>, target: nat) {
    forall i :: 0 <= i < |chunks| - 1 ==> chunks[i].Chunk? && |chunks[i].bytes| >= target
  }

  /** The body so far is what was sent, all of it in full chunks, and then what
      is buffered, which is shorter than a chunk. */
  ghost predicate Streamed(sent: seq<Chunk>, buf: Text, body: Text, target: nat) {
    && Unbroken(sent) && Full(sent, target) && Received(sent) + buf == body
    && (if target == 0 then buf == [] else |buf| < target)
  }

  lemma StreamedSend(sent: seq<Chunk>, buf: Text, data: Text, body: Text, target: nat)
    requires Streamed(sent, buf, body, target) && |buf + data| >= target
    ensures Streamed(sent + [Chunk(buf + data)], [], body + data, target)
  {
    ReceivedPush(sent, Chunk(buf + data));
    assert Received(sent) + (buf + data) == body + data;
  }

  lemma StreamedKeep(sent: seq<Chunk>, buf: Text, data: Text, body: Text, target: nat)
    requires Streamed(sent, buf, body, target) && |buf + data| < target
    ensures Streamed(sent, buf + data, body + data, target)
  {
    assert Received(sent) + (buf + data) == body + data;
  }

  /** What a frame adds to the chunks sent, and what it leaves in the buffer. */
  function Joined(sent: seq<Chunk>, buf: Text, data: Text, target: nat): (seq<Chunk>, Text) {
    if target == 0 || (buf == [] && |data| >= target) then (sent + [Chunk(data)], buf)
    else if |buf + data| >= target then (sent + [Chunk(buf + data)], [])
    else (sent, buf + data)
  }

  function JoinedAll(frames: seq<Frame>, target: nat): (seq<Chunk>, Text) {
    if frames == [] then ([], [])
    else
      var (sent, buf) := JoinedAll(frames[..|frames| - 1], target);
      match frames[|frames| - 1]
      case Data(bytes) => Joined(sent, buf, bytes, target)
      case Trailers => (sent, buf)
  }

  /** An error goes out before the bytes still buffered; an abort drops them. */
  function EndChunks(end: End, buf: Text): seq<Chunk> {
    match end
    case Clean => if buf == [] then [] else [Chunk(buf)]
    case Fails => if buf == [] then [Failure] else [Failure, Chunk(buf)]
    case Aborted => [Failure]
  }

  /** Everything a listening receiver gets. */
  function ChunksOf(frames: seq<Frame>, end: End, target: nat): seq<Chunk> {
    JoinedAll(frames, target).0 + EndChunks(end, JoinedAll(frames, target).1)
  }

  lemma EndBroken(sent: seq<Chunk>, buf: Text, body: Text, target: nat, end: End)
    requires Streamed(sent, buf, body, target) && !end.Clean?
    ensures var chunks := sent + EndChunks(end, buf); Received(chunks) <= body && !Unbroken(chunks)
  {
    var chunks := sent + EndChunks(end, buf);
    ReceivedPush(sent, Failure);
    assert (sent + [Failure])[|sent|] == Failure && chunks[|sent|] == Failure;
    if end.Fails? && buf != [] {
      ReceivedPush(sent + [Failure], Chunk(buf));
      assert chunks == sent + [Failure] + [Chunk(buf)];
    }
  }

  lemma EndClean(sent: seq<Chunk>, buf: Text, body: Text, target: nat)
    requires Streamed(sent, buf, body, target)
    ensures var chunks := sent + EndChunks(Clean, buf);
            Unbroken(chunks) && Received(chunks) == body && FullButLast(chunks, target)
  {
    if buf == [] {
      assert sent + [] == sent && Received(sent) + [] == Received(sent);
    } else {
      ReceivedPush(sent, Chunk(buf));
    }
  }

  /** What the end of the frames means for the receiver. */
  lemma EndReceived(sent: seq<Chunk>, buf: Text, body: Text, target: nat, end: End)
    requires Streamed(sent, buf, body, target)
    ensures var chunks := sent + EndChunks(end, buf);
            && Received(chunks) <= body && (Unbroken(chunks) <==> end.Clean?)
            && (end.Clean? ==> Received(chunks) == body && FullButLast(chunks, target))
    ensures Received(sent) <= body && Received(sent + [Failure]) <= body && FullButLast(sent, target)
  {
    ReceivedPush(sent, Failure);
    if end.Clean? {
      EndClean(sent, buf, body, target);
    } else {
      EndBroken(sent, buf, body, target, end);
    }
  }

  lemma {:induction false} JoinedUnbroken(frames: seq<Frame>, target: nat)
    ensures Unbroken(JoinedAll(frames, target).0) && (target == 0 ==> JoinedAll(frames, target).1 == [])
  {
    if frames != [] {
      JoinedUnbroken(frames[..|frames| - 1], target);
    }
  }

  /** Some bytes come after an error. */
  ghost predicate BytesAfterError(chunks: seq<Chunk>) {
    exists i, j :: 0 <= i < j < |chunks| && chunks[i].Failure? && chunks[j].Chunk?
  }

  /** Bytes follow the error exactly when a failing body leaves some buffered,
      which it never does when joining is off. */
  lemma ErrorBeforeBytes(frames: seq<Frame>, end: End, target: nat)
    ensures BytesAfterError(ChunksOf(frames, end, target)) <==> end.Fails? && JoinedAll(frames, target).1 != []
    ensures target == 0 ==> !BytesAfterError(ChunksOf(frames, end, target))
  {
    var (sent, buf) := JoinedAll(frames, target);
    JoinedUnbroken(frames, target);
    var chunks := ChunksOf(frames, end, target);
    assert forall i :: 0 <= i < |sent| ==> chunks[i] == sent[i];
    if end.Fails? && buf != [] {
      assert chunks[|sent|].Failure? && chunks[|sent| + 1].Chunk?;
    }
  }

  /** The receiver takes `room` more chunks and is then gone. */
  class Streamer {
    const target: nat
    var buf: Text
    var sent: seq<Chunk>
    var room: nat

    constructor (target: nat, room: nat)
      ensures this.target == target && buf == [] && sent == [] && this.room == room
    {
      this.target, buf, sent, this.room := target, [], [], room;
    }

    method Send(chunk: Chunk) returns (ok: bool)
      modifies this`sent, this`room
      ensures ok == (old(room) > 0) && room == if ok then old(room) - 1 else 0
      ensures sent == if ok then old(sent) + [chunk] else old(sent)
    {
      ok := room > 0;
      if ok {
        sent, room := sent + [chunk], room - 1;
      }
    }

    /** Adds a frame: its bytes are sent or kept, in order. */
    method ForwardOrBufferChunk(data: Text, ghost body: Text) returns (ok: bool)
      requires Streamed(sent, buf, body, target)
      modifies this
      ensures ok ==> Streamed(sent, buf, body + data, target)
      ensures ok ==> (sent, buf) == Joined(old(sent), old(buf), data, target)
      ensures !ok ==> old(room) == 0 && sent == old(sent)
      ensures room >= old(room) - 1
    {
      if target == 0 || (buf == [] && |data| >= target) {
        StreamedSend(sent, buf, data, body, target);
        assert buf + data == data;
        ok := Send(Chunk(data));
        return;
      }
      if |buf + data| < target {
        StreamedKeep(sent, buf, data, body, target);
      } else {
        StreamedSend(sent, buf, data, body, target);
      }
      buf := buf + data;
      if |buf| >= target {
        var out := buf;
        buf := [];
        ok := Send(Chunk(out));
        return;
      }
      return true;
    }

    /** Tells the receiver how the frames ended: an error is sent before the
        bytes still buffered, and an abort drops them. */
    method Finish(end: End, ghost body: Text) returns (heard: bool)
      requires Streamed(sent, buf, body, target)
      modifies this
      ensures Received(sent) <= body && (old(room) >= 2 ==> heard)
      ensures heard ==> (Unbroken(sent) <==> end.Clean?) && (end.Clean? ==> Received(sent) == body)
      ensures end.Clean? ==> FullButLast(sent, target)
      ensures heard ==> sent == old(sent) + EndChunks(end, old(buf))
    {
      heard := true;
      EndReceived(sent, buf, body, target, end);
      if !end.Clean? {
        heard := Send(Failure);
        if end.Aborted? {
          return;
        }
      }
      if buf != [] {
        var sentOk := Send(Chunk(buf));
        heard := heard && sentOk;
      }
      assert old(sent) + [Failure] + [Chunk(buf)] == old(sent) + [Failure, Chunk(buf)];
      assert heard ==> sent == old(sent) + EndChunks(end, buf);
    }

    /** Streams a body. Before the first failure the receiver gets a prefix of
        it; while the receiver listens, a clean end delivers all of it in full
        chunks but for the last one, and any other end breaks the stream. */
    method StreamBody(frames: seq<Frame>, end: End) returns (heard: bool)
      requires buf == [] && sent == []
      modifies this
      ensures Received(sent) <= BodyOf(frames)
      ensures old(room) >= |frames| + 2 ==> heard
      ensures heard ==> (Unbroken(sent) <==> end.Clean?)
      ensures heard && end.Clean? ==> Received(sent) == BodyOf(frames) && FullButLast(sent, target)
      ensures heard ==> sent == ChunksOf(frames, end, target)
    {
      for i := 0 to |frames|
        invariant Streamed(sent, buf, BodyOf(frames[..i]), target) && room >= old(room) - i
        invariant (sent, buf) == JoinedAll(frames[..i], target)
      {
        assert frames[..i + 1][..i] == frames[..i];
        if frames[i].Data? {
          var ok := ForwardOrBufferChunk(frames[i].bytes, BodyOf(frames[..i]));
          if !ok {
            BodyPrefix(frames, i);
            return false;
          }
        }
      }
      assert frames[..|frames|] == frames;
      heard := Finish(end, BodyOf(frames));
    }
  }

  lemma {:induction false} BodyPrefix(frames: seq<Frame>, n: nat)
    requires n <= |frames|
    ensures BodyOf(frames[..n]) <= BodyOf(frames)
  {
    if n == |frames| {
      assert frames[..n] == frames;
    } else {
      assert frames[..|frames| - 1][..n] == frames[..n];
      BodyPrefix(frames[..|frames| - 1], n);
    }
  }

  /** The chunk size the host asks for, raised to the smallest one; 0 turns joining off. */
  function EffectiveTarget(asked: nat): nat {
    if asked == 0 then 0 else Max(asked, MIN_STREAM_COALESCE_TARGET)
  }

  /** The frames of data, one chunk each. */
  function FrameChunks(frames: seq<Frame>): seq<Chunk> {
    if frames == [] then []
    else
      var last := frames[|frames| - 1];
      FrameChunks(frames[..|frames| - 1]) + if last.Data? then [Chunk(last.bytes)] else []
  }

  /** With joining off every frame is forwarded as it arrives. */
  lemma {:induction false} JoiningOff(frames: seq<Frame>)
    ensures JoinedAll(frames, 0) == (FrameChunks(frames), [])
  {
    if frames != [] {
      JoiningOff(frames[..|frames| - 1]);
      assert FrameChunks(frames[..|frames| - 1]) + [] == FrameChunks(frames[..|frames| - 1]);
    }
  }

  /** A body streamed to a receiver that listens to the end. */
  method StreamResponse(frames: seq<Frame>, end: End, asked: nat) returns (chunks: seq<Chunk>)
    ensures Received(chunks) <= BodyOf(frames)
    ensures Unbroken(chunks) <==> end.Clean?
    ensures end.Clean? ==> Received(chunks) == BodyOf(frames) && FullButLast(chunks, EffectiveTarget(asked))
    ensures chunks == ChunksOf(frames, end, EffectiveTarget(asked))
    ensures asked == 0 ==> chunks == FrameChunks(frames) + if end.Clean? then [] else [Failure]
    ensures asked > 0 && end.Clean? ==> FullButLast(chunks, 4096) && FullButLast(chunks, asked)
  {
    JoiningOff(frames);
    var s := new Streamer(EffectiveTarget(asked), |frames| + 2);
    var _ := s.StreamBody(frames, end);
    chunks := s.sent;
  }
}
