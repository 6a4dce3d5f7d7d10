/** The incremental parser of server-sent events. */
module SseParser {
  import opened Basics
  import opened Bytes

  /** The field names, and the type of an event that names none. */
  const EVENT: Text := [101, 118, 101, 110, 116]
  const DATA: Text := [100, 97, 116, 97]
  const ID: Text := [105, 100]
  const RETRY: Text := [114, 101, 116, 114, 121]
  const MESSAGE: Text := [109, 101, 115, 115, 97, 103, 101]

  datatype Pending = Pending(event: Option<Text>, data: seq<Text>, id: Option<Text>, retry: Option<nat>)

  const NO_PENDING := Pending(None, [], None, None)

  datatype Event = Event(event: Text, data: Text, id: Option<Text>, retryMs: nat)

  /** What the channel to the consumer carries. */
  datatype Message = Ok(event: Event) | Err

  /** What parsing changes besides the line buffer. `sent` is what the
      consumer took; it takes `room` more and is then gone. */
  datatype Stream = Stream(pending: Pending, lastId: Option<Text>, delay: nat, sent: seq<Message>, room: nat)

  /** What stays fixed: the lossy decoding of a line and the longest delay. */
  datatype Config = Config(lossy: Text -> Text, maxDelay: nat)

  function Join(lines: seq<Text>): Text {
    if |lines| == 0 then []
    else if |lines| == 1 then lines[0]
    else Join(lines[..|lines| - 1]) + [LF] + lines[|lines| - 1]
  }

  function Clamp(n: nat, low: nat, high: nat): nat {
    Min(Max(n, low), high)
  }

  // ---------- one line at a time

  /** Ends the pending event; it is sent if it has data. */
  function Flush(s: Stream, maxDelay: nat): Stream {
    var delay := if s.pending.retry.Some? then Clamp(s.pending.retry.value, 1, maxDelay) else s.delay;
    var lastId := if s.pending.id.Some? then s.pending.id else s.lastId;
    var event := if s.pending.event.Some? then s.pending.event.value else MESSAGE;
    if s.pending.data != [] && s.room > 0 then
      Stream(NO_PENDING, lastId, delay, s.sent + [Ok(Event(event, Join(s.pending.data), lastId, delay))], s.room - 1)
    else Stream(NO_PENDING, lastId, delay, s.sent, s.room)
  }

  /** The consumer is gone although there is an event to send. */
  predicate Refused(s: Stream) {
    s.pending.data != [] && s.room == 0
  }

  function WithoutCr(line: Text): Text {
    if line != [] && line[|line| - 1] == CR then line[..|line| - 1] else line
  }

  function FieldOf(line: Text): Text {
    line[..IndexOf(line, COLON)]
  }

  /** What follows the colon, without one leading space. */
  function ValueOf(line: Text): Text {
    var i := IndexOf(line, COLON);
    if i == |line| then []
    else if i + 1 < |line| && line[i + 1] == SPACE then line[i + 2..]
    else line[i + 1..]
  }

  function SetField(p: Pending, field: Text, value: Text): Pending {
    if field == EVENT then p.(event := Some(value))
    else if field == DATA then p.(data := p.data + [value])
    else if field == ID && NUL !in value then p.(id := Some(value))
    else if field == RETRY && ParseU64(value).Some? then p.(retry := ParseU64(value))
    else p
  }

  /** The effect of one decoded line. */
  function Effect(s: Stream, line: Text, maxDelay: nat): Stream {
    if line == [] then Flush(s, maxDelay)
    else if line[0] == COLON then s
    else s.(pending := SetField(s.pending, FieldOf(line), ValueOf(line)))
  }

  /** The effect of the bytes of one line, given without its line feed. */
  function Line(s: Stream, raw: Text, c: Config): Stream {
    Effect(s, c.lossy(WithoutCr(raw)), c.maxDelay)
  }

  // ---------- the reference: one byte at a time

  datatype Parser = Parser(buf: Text, stream: Stream)

  function Take(p: Parser, b: Byte, c: Config): Parser {
    if b == LF then Parser([], Line(p.stream, p.buf, c)) else Parser(p.buf + [b], p.stream)
  }

  function Feed(p: Parser, bytes: Text, c: Config): Parser {
    if bytes == [] then p else Take(Feed(p, bytes[..|bytes| - 1], c), bytes[|bytes| - 1], c)
  }

  function Concat(chunks: seq<Text>): Text {
    if chunks == [] then [] else Concat(chunks[..|chunks| - 1]) + chunks[|chunks| - 1]
  }

  lemma {:induction false} FeedConcat(p: Parser, a: Text, b: Text, c: Config)
    ensures Feed(p, a + b, c) == Feed(Feed(p, a, c), b, c)
  {
    if b == [] {
      assert a + b == a;
    } else {
      var rest := b[..|b| - 1];
      assert (a + b)[..|a + b| - 1] == a + rest;
      FeedConcat(p, a, rest, c);
    }
  }

  lemma {:induction false} FeedPlain(p: Parser, bytes: Text, c: Config)
    requires LF !in bytes
    ensures Feed(p, bytes, c) == Parser(p.buf + bytes, p.stream)
  {
    if bytes != [] {
      FeedPlain(p, bytes[..|bytes| - 1], c);
    }
  }

  lemma FeedLast(p: Parser, bytes: Text, b: Byte, c: Config)
    ensures Feed(p, bytes + [b], c) == Take(Feed(p, bytes, c), b, c)
  {
    assert (bytes + [b])[..|bytes|] == bytes;
  }

  /** A whole line takes effect at its line feed. */
  lemma FeedLine(s: Stream, raw: Text, rest: Text, c: Config)
    requires LF !in raw
    ensures Feed(Parser([], s), raw + [LF] + rest, c) == Feed(Parser([], Line(s, raw, c)), rest, c)
  {
    FeedConcat(Parser([], s), raw + [LF], rest, c);
    FeedLast(Parser([], s), raw, LF, c);
    FeedPlain(Parser([], s), raw, c);
    assert [] + raw == raw;
  }

  /** The leftover after feeding bytes never holds a line feed. */
  lemma {:induction false} LeftoverHasNoLine(p: Parser, bytes: Text, c: Config)
    requires LF !in p.buf
    ensures LF !in Feed(p, bytes, c).buf
  {
    if bytes != [] {
      LeftoverHasNoLine(p, bytes[..|bytes| - 1], c);
    }
  }

  /** Trailing bytes count as one more line, and the end of the stream as a blank line. */
  function Finish(p: Parser, c: Config): Stream {
    Flush(if p.buf == [] then p.stream else Line(p.stream, p.buf, c), c.maxDelay)
  }

  /** Where the parser starts on a new connection. */
  function Fresh(s: Stream): Parser {
    Parser([], s.(pending := NO_PENDING))
  }

  function FeedChunks(p: Parser, chunks: seq<Text>, c: Config): Parser {
    if chunks == [] then p else Feed(FeedChunks(p, chunks[..|chunks| - 1], c), chunks[|chunks| - 1], c)
  }

  lemma {:induction false} FeedAll(p: Parser, chunks: seq<Text>, c: Config)
    ensures FeedChunks(p, chunks, c) == Feed(p, Concat(chunks), c)
  {
    if chunks != [] {
      FeedAll(p, chunks[..|chunks| - 1], c);
      FeedConcat(p, Concat(chunks[..|chunks| - 1]), chunks[|chunks| - 1], c);
    }
  }

  /** The events depend on the bytes only, not on how they are cut into chunks. */
  lemma {:induction false} ChunkingIndependence(p: Parser, chunks: seq<Text>, others: seq<Text>, c: Config)
    requires Concat(chunks) == Concat(others)
    ensures FeedChunks(p, chunks, c) == Feed(p, Concat(chunks), c) == FeedChunks(p, others, c)
  {
    FeedAll(p, chunks, c);
    FeedAll(p, others, c);
  }

  // ---------- a consumer that is gone

  /** Once the consumer is gone nothing more is sent. */
  lemma {:induction false} GoneForGood(p: Parser, bytes: Text, c: Config)
    requires p.stream.room == 0
    ensures Feed(p, bytes, c).stream.sent == p.stream.sent && Feed(p, bytes, c).stream.room == 0
  {
    if bytes != [] {
      GoneForGood(p, bytes[..|bytes| - 1], c);
    }
  }

  /** The delay is in bounds and the consumer was told of no error. */
  predicate Healthy(s: Stream, maxDelay: nat) {
    1 <= s.delay <= maxDelay && forall i :: 0 <= i < |s.sent| ==> s.sent[i].Ok?
  }

  predicate SameSent(s: Stream, other: Stream) {
    s.sent == other.sent && s.room == other.room
  }

  // ---------- parsing that stops at a consumer that is gone

  datatype Parsed = Parsed(ok: bool, buf: Text, stream: Stream)

  predicate Blank(raw: Text, c: Config) {
    c.lossy(WithoutCr(raw)) == []
  }

  /** Parses line by line, up to the first event nobody takes. */
  function ParseLines(s: Stream, buf: Text, c: Config): Parsed
    decreases |buf|
  {
    var pos := IndexOf(buf, LF);
    if pos == |buf| then Parsed(true, buf, s)
    else if Blank(buf[..pos], c) && Refused(s) then Parsed(false, buf[pos + 1..], Line(s, buf[..pos], c))
    else ParseLines(Line(s, buf[..pos], c), buf[pos + 1..], c)
  }

  /** The chunks of a new body, read one after the other. */
  function ReadAll(s: Stream, chunks: seq<Text>, c: Config): Parsed {
    if chunks == [] then Parsed(true, [], s.(pending := NO_PENDING))
    else
      var p := ReadAll(s, chunks[..|chunks| - 1], c);
      if p.ok then ParseLines(p.stream, p.buf + chunks[|chunks| - 1], c) else p
  }

  /** What is left in the buffer is one more line, and then the event ends. */
  function EndOf(s: Stream, buf: Text, c: Config): Stream {
    Flush(if buf == [] then s else ParseLines(s, buf + [LF], c).stream, c.maxDelay)
  }

  function BodyRead(s: Stream, chunks: seq<Text>, c: Config): Stream {
    EndOf(ReadAll(s, chunks, c).stream, ReadAll(s, chunks, c).buf, c)
  }

  /** Stopping early makes no difference to the consumer, and there is no
      difference at all while the consumer listens. */
  predicate Agrees(p: Parsed, q: Parser) {
    if p.ok then Parser(p.buf, p.stream) == q && LF !in p.buf else p.stream.room == 0 && SameSent(p.stream, q.stream)
  }

  lemma {:induction false} ParseLinesAgree(s: Stream, buf: Text, c: Config)
    ensures Agrees(ParseLines(s, buf, c), Feed(Parser([], s), buf, c))
    decreases |buf|
  {
    var pos := IndexOf(buf, LF);
    if pos == |buf| {
      assert buf[..pos] == buf && [] + buf == buf;
      FeedPlain(Parser([], s), buf, c);
    } else {
      var raw, rest := buf[..pos], buf[pos + 1..];
      assert buf == raw + [LF] + rest;
      FeedLine(s, raw, rest, c);
      if Blank(raw, c) && Refused(s) {
        GoneForGood(Parser([], Line(s, raw, c)), rest, c);
      } else {
        ParseLinesAgree(Line(s, raw, c), rest, c);
      }
    }
  }

  /** A chunk continues what the chunks before it left in the buffer. */
  lemma ReadOneAgrees(s: Stream, buf: Text, chunk: Text, c: Config)
    requires LF !in buf
    ensures Agrees(ParseLines(s, buf + chunk, c), Feed(Parser(buf, s), chunk, c))
  {
    FeedConcat(Parser([], s), buf, chunk, c);
    FeedPlain(Parser([], s), buf, c);
    assert [] + buf == buf;
    ParseLinesAgree(s, buf + chunk, c);
  }

  lemma {:induction false} ReadAllAgrees(s: Stream, chunks: seq<Text>, c: Config)
    ensures Agrees(ReadAll(s, chunks, c), Feed(Fresh(s), Concat(chunks), c))
  {
    if chunks != [] {
      var rest, last := chunks[..|chunks| - 1], chunks[|chunks| - 1];
      var p, q := ReadAll(s, rest, c), Feed(Fresh(s), Concat(rest), c);
      ReadAllAgrees(s, rest, c);
      FeedConcat(Fresh(s), Concat(rest), last, c);
      if p.ok {
        ReadOneAgrees(p.stream, p.buf, last, c);
      } else {
        GoneForGood(q, last, c);
      }
    }
  }

  lemma GoneForGoodIf(p: Parser, bytes: Text, c: Config)
    ensures p.stream.room == 0 ==> SameSent(Feed(p, bytes, c).stream, p.stream)
  {
    if p.stream.room == 0 {
      GoneForGood(p, bytes, c);
    }
  }

  lemma EndAgrees(s: Stream, buf: Text, c: Config)
    ensures s.room == 0 ==> SameSent(EndOf(s, buf, c), s)
    ensures LF !in buf ==> SameSent(EndOf(s, buf, c), Finish(Parser(buf, s), c))
    ensures LF !in buf && EndOf(s, buf, c).room > 0 ==> EndOf(s, buf, c) == Finish(Parser(buf, s), c)
  {
    ParseLinesAgree(s, buf + [LF], c);
    GoneForGoodIf(Parser([], s), buf + [LF], c);
    if LF !in buf {
      FeedLine(s, buf, [], c);
      assert buf + [LF] + [] == buf + [LF];
    }
  }

  lemma FinishGone(q: Parser, c: Config)
    requires q.stream.room == 0
    ensures SameSent(Finish(q, c), q.stream)
  {}

  /** Whatever the chunks and whenever the consumer leaves, it gets exactly the
      events of the bytes; while it listens nothing else depends on the chunks. */
  lemma BodyAgrees(s: Stream, chunks: seq<Text>, c: Config)
    ensures SameSent(BodyRead(s, chunks, c), Finish(Feed(Fresh(s), Concat(chunks), c), c))
    ensures BodyRead(s, chunks, c).room > 0 ==>
              BodyRead(s, chunks, c) == Finish(Feed(Fresh(s), Concat(chunks), c), c) && ReadAll(s, chunks, c).ok
  {
    var p, q := ReadAll(s, chunks, c), Feed(Fresh(s), Concat(chunks), c);
    ReadAllAgrees(s, chunks, c);
    EndAgrees(p.stream, p.buf, c);
    if !p.ok {
      EndAgrees(q.stream, [], c);
      FinishGone(q, c);
    }
  }

  lemma {:induction false} HealthyLines(s: Stream, buf: Text, c: Config)
    requires Healthy(s, c.maxDelay)
    ensures Healthy(ParseLines(s, buf, c).stream, c.maxDelay)
    decreases |buf|
  {
    var pos := IndexOf(buf, LF);
    if pos < |buf| && !(Blank(buf[..pos], c) && Refused(s)) {
      HealthyLines(Line(s, buf[..pos], c), buf[pos + 1..], c);
    }
  }

  /** Reading stops for good at the first chunk with an event nobody takes. */
  lemma {:induction false} GaveUp(s: Stream, chunks: seq<Text>, n: nat, c: Config)
    requires n <= |chunks| && !ReadAll(s, chunks[..n], c).ok
    ensures ReadAll(s, chunks, c) == ReadAll(s, chunks[..n], c)
  {
    if n == |chunks| {
      assert chunks[..n] == chunks;
    } else {
      assert chunks[..|chunks| - 1][..n] == chunks[..n];
      GaveUp(s, chunks[..|chunks| - 1], n, c);
    }
  }

  // ---------- the parser of the host

  class SseState {
    const c: Config
    var lineBuf: Text
    var pending: Pending
    var lastId: Option<Text>
    var delay: nat
    var sent: seq<Message>
    var room: nat

    ghost function View(): Stream
      reads this
    {
      Stream(pending, lastId, delay, sent, room)
    }

    constructor (c: Config, lastId: Option<Text>, delay: nat, room: nat)
      ensures this.c == c && lineBuf == [] && View() == Stream(NO_PENDING, lastId, delay, [], room)
    {
      this.c, lineBuf, pending, this.lastId, this.delay, sent, this.room := c, [], NO_PENDING, lastId, delay, [], room;
    }

    method FlushPendingEvent() returns (ok: bool)
      requires Healthy(View(), c.maxDelay)
      modifies this`pending, this`lastId, this`delay, this`sent, this`room
      ensures Healthy(View(), c.maxDelay)
      ensures View() == Flush(old(View()), c.maxDelay) && ok == !Refused(old(View()))
    {
      if pending.retry.Some? {
        assert 1 <= c.maxDelay;
        delay, pending := Clamp(pending.retry.value, 1, c.maxDelay), pending.(retry := None);
      }
      if pending.id.Some? {
        lastId, pending := pending.id, pending.(id := None);
      }
      if pending.data == [] {
        pending := pending.(event := None);
        return true;
      }
      var kind := if pending.event.Some? then pending.event.value else MESSAGE;
      var event := Event(kind, Join(pending.data), lastId, delay);
      pending := pending.(event := None, data := []);
      if room == 0 {
        return false;
      }
      sent, room := sent + [Ok(event)], room - 1;
      return true;
    }

    /** Takes in one line, given without its line feed. */
    method TakeLine(taken: Text) returns (ok: bool)
      requires Healthy(View(), c.maxDelay)
      modifies this`pending, this`lastId, this`delay, this`sent, this`room
      ensures Healthy(View(), c.maxDelay)
      ensures View() == Line(old(View()), taken, c) && ok == !(Blank(taken, c) && Refused(old(View())))
    {
      var raw := taken;
      if raw != [] && raw[|raw| - 1] == CR {
        raw := raw[..|raw| - 1];
      }
      var line := c.lossy(raw);
      ok := true;
      if line == [] {
        ok := FlushPendingEvent();
      } else if line[0] != COLON {
        pending := SetField(pending, FieldOf(line), ValueOf(line));
      }
    }

    /** Parses the complete lines of the buffer. */
    method ParseAvailableEvents() returns (ok: bool)
      requires Healthy(View(), c.maxDelay)
      modifies this
      ensures Healthy(View(), c.maxDelay)
      ensures Parsed(ok, lineBuf, View()) == ParseLines(old(View()), old(lineBuf), c)
      ensures Agrees(Parsed(ok, lineBuf, View()), Feed(Parser([], old(View())), old(lineBuf), c))
    {
      ParseLinesAgree(View(), lineBuf, c);
      while IndexOf(lineBuf, LF) < |lineBuf|
        invariant Healthy(View(), c.maxDelay)
        invariant ParseLines(View(), lineBuf, c) == ParseLines(old(View()), old(lineBuf), c)
        decreases |lineBuf|
      {
        var pos := IndexOf(lineBuf, LF);
        var raw := lineBuf[..pos];
        lineBuf := lineBuf[pos + 1..];
        ok := TakeLine(raw);
        if !ok {
          return;
        }
      }
      return true;
    }

    /** Reads the next chunk of the body. */
    method ReadChunk(chunk: Text) returns (ok: bool)
      requires Healthy(View(), c.maxDelay) && LF !in lineBuf
      modifies this
      ensures Healthy(View(), c.maxDelay)
      ensures Parsed(ok, lineBuf, View()) == ParseLines(old(View()), old(lineBuf) + chunk, c)
      ensures Agrees(Parsed(ok, lineBuf, View()), Feed(Parser(old(lineBuf), old(View())), chunk, c))
    {
      ReadOneAgrees(View(), lineBuf, chunk, c);
      lineBuf := lineBuf + chunk;
      ok := ParseAvailableEvents();
    }

    /** Ends the body: the rest of the buffer is one last line. */
    method EndBody()
      requires Healthy(View(), c.maxDelay)
      modifies this
      ensures Healthy(View(), c.maxDelay)
      ensures View() == EndOf(old(View()), old(lineBuf), c)
      ensures LF !in old(lineBuf) && room > 0 ==> View() == Finish(Parser(old(lineBuf), old(View())), c)
    {
      EndAgrees(View(), lineBuf, c);
      if lineBuf != [] {
        lineBuf := lineBuf + [LF];
        var _ := ParseAvailableEvents();
      }
      var _ := FlushPendingEvent();
    }

    /** Reads the chunks of a new body, until the consumer is found gone. */
    method ReadChunks(chunks: seq<Text>) returns (ok: bool)
      requires Healthy(View(), c.maxDelay)
      modifies this
      ensures Healthy(View(), c.maxDelay)
      ensures Parsed(ok, lineBuf, View()) == ReadAll(old(View()), chunks, c)
    {
      ghost var start := View();
      lineBuf, pending, ok := [], NO_PENDING, true;
      for i := 0 to |chunks|
        invariant Healthy(View(), c.maxDelay) && LF !in lineBuf
        invariant Parsed(true, lineBuf, View()) == ReadAll(start, chunks[..i], c)
      {
        ok := ReadChunk(chunks[i]);
        assert chunks[..i + 1][..i] == chunks[..i];
        if !ok {
          GaveUp(start, chunks, i + 1, c);
          return;
        }
      }
      assert chunks[..|chunks|] == chunks;
      ok := true;
    }

    /** Reads a body that arrives in chunks and then ends or fails. While the
        consumer listens, what is sent and what is kept for the next connection
        depend only on the bytes. */
    method ReadBody(chunks: seq<Text>, fails: bool) returns (failed: bool)
      requires Healthy(View(), c.maxDelay)
      modifies this
      ensures Healthy(View(), c.maxDelay)
      ensures View() == BodyRead(old(View()), chunks, c) && failed == (fails || !ReadAll(old(View()), chunks, c).ok)
      ensures sent == Finish(Feed(Fresh(old(View())), Concat(chunks), c), c).sent
      ensures room > 0 ==> View() == Finish(Feed(Fresh(old(View())), Concat(chunks), c), c) && failed == fails
    {
      BodyAgrees(View(), chunks, c);
      var ok := ReadChunks(chunks);
      failed := fails || !ok;
      EndBody();
    }
  }
}
