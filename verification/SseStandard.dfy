/** Event streams as sections 9.2.5 and 9.2.6 of the WHATWG HTML Standard read
    them, and the streams on which the parser agrees. */
module SseStandard {
  import opened Basics
  import opened Bytes
  import opened SseParser

  /** The byte order mark. */
  const BOM: Text := [239, 187, 191]

  datatype StandardEvent = StandardEvent(kind: Text, data: Text, id: Text)

  /** The buffers of section 9.2.6, the last event ID string, the reconnection
      time once it is set, and the events dispatched. */
  datatype Interpreter = Interpreter(data: Text, kind: Text, id: Text, lastId: Text, retry: Option<nat>,
                                     events: seq<StandardEvent>)

  /** Each stream starts with empty buffers. */
  const START := Interpreter([], [], [], [], None, [])

  // ---------- lines

  /** The position of the first CR or LF, or the length when there is none. */
  function LineEnd(bytes: Text): (i: nat)
    ensures i <= |bytes| && CR !in bytes[..i] && LF !in bytes[..i]
    ensures i < |bytes| ==> bytes[i] == CR || bytes[i] == LF
  {
    Min(IndexOf(bytes, CR), IndexOf(bytes, LF))
  }

  /** Where the line after the one that ends at `i` begins. */
  function NextLine(bytes: Text, i: nat): (next: nat)
    requires i < |bytes|
    ensures i < next <= |bytes|
  {
    if bytes[i] == CR && i + 1 < |bytes| && bytes[i + 1] == LF then i + 2 else i + 1
  }

  /** The lines, each ended by CRLF, LF or CR, and what follows the last of them. */
  function SplitLines(bytes: Text): (seq<Text>, Text)
    decreases |bytes|
  {
    var i := LineEnd(bytes);
    if i == |bytes| then ([], bytes)
    else
      var (lines, rest) := SplitLines(bytes[NextLine(bytes, i)..]);
      ([bytes[..i]] + lines, rest)
  }

  // ---------- one line at a time

  /** A blank line dispatches the event, unless there is no data. */
  function Dispatch(t: Interpreter): Interpreter {
    var events :=
      if t.data == [] then t.events
      else t.events + [StandardEvent(if t.kind == [] then MESSAGE else t.kind, t.data[..|t.data| - 1], t.id)];
    t.(data := [], kind := [], lastId := t.id, events := events)
  }

  /** Only digits make a reconnection time. */
  function RetryOf(value: Text): Option<nat> {
    if value != [] && AllDigits(value) then Some(Value(value)) else None
  }

  function ProcessField(t: Interpreter, field: Text, value: Text): Interpreter {
    if field == EVENT then t.(kind := value)
    else if field == DATA then t.(data := t.data + value + [LF])
    else if field == ID && NUL !in value then t.(id := value)
    else if field == RETRY && RetryOf(value).Some? then t.(retry := RetryOf(value))
    else t
  }

  function ProcessLine(t: Interpreter, line: Text): Interpreter {
    if line == [] then Dispatch(t)
    else if line[0] == COLON then t
    else ProcessField(t, FieldOf(line), ValueOf(line))
  }

  function Interpret(t: Interpreter, lines: seq<Text>, c: Config): Interpreter
    decreases |lines|
  {
    if lines == [] then t else Interpret(ProcessLine(t, c.lossy(lines[0])), lines[1..], c)
  }

  /** One byte order mark at the start is dropped, and so is what follows the last line. */
  function Unmarked(bytes: Text): Text {
    if BOM <= bytes then bytes[|BOM|..] else bytes
  }

  function Standard(bytes: Text, c: Config): Interpreter {
    Interpret(START, SplitLines(Unmarked(bytes)).0, c)
  }

  // ---------- the conditions of agreement

  /** Every CR is followed by LF. */
  predicate NoLoneCr(bytes: Text) {
    forall i :: 0 <= i < |bytes| && bytes[i] == CR ==> i + 1 < |bytes| && bytes[i + 1] == LF
  }

  /** The line names the field, with or without a value. */
  predicate Names(line: Text, field: Text) {
    line != [] && line[0] != COLON && FieldOf(line) == field
  }

  predicate EmptyType(line: Text) {
    Names(line, EVENT) && ValueOf(line) == []
  }

  /** A reconnection time that only one of the two reads: with a plus sign, or
      too large for 64 bits. */
  predicate OddRetry(line: Text) {
    Names(line, RETRY) && RetryOf(ValueOf(line)) != ParseU64(ValueOf(line))
  }

  /** A line that ends names no empty type. */
  predicate NoEmptyType(lines: seq<Text>, c: Config) {
    forall i :: 0 <= i < |lines| ==> !EmptyType(c.lossy(lines[i]))
  }

  predicate NoOddRetry(lines: seq<Text>, c: Config) {
    forall i :: 0 <= i < |lines| ==> !OddRetry(c.lossy(lines[i]))
  }

  /** There is data that no blank line follows. */
  predicate Unfinished(t: Interpreter, rest: Text, c: Config) {
    t.data != [] || (rest != [] && Names(c.lossy(rest), DATA))
  }

  /** The stream is in the common reading of the two, up to its end. */
  predicate Common(bytes: Text, c: Config) {
    !(BOM <= bytes) && NoLoneCr(bytes) && NoEmptyType(SplitLines(bytes).0, c)
  }

  /** Exactly the plus sign and the numbers that do not fit make a difference. */
  lemma OddRetryExactly(value: Text)
    ensures RetryOf(value) != ParseU64(value) <==>
              || (value != [] && value[0] == PLUS && ParseU64(value).Some?)
              || (value != [] && AllDigits(value) && Value(value) > MAX_U64)
  {
    if value != [] && value[0] == PLUS {
      assert !IsDigit(value[0]);
    }
  }

  // ---------- lines agree

  /** The effects of the lines, one after the other. */
  function Effects(s: Stream, lines: seq<Text>, c: Config): Stream
    decreases |lines|
  {
    if lines == [] then s else Effects(Effect(s, c.lossy(lines[0]), c.maxDelay), lines[1..], c)
  }

  /** The bytes of the line before its line feed. */
  lemma RawAgrees(bytes: Text, i: nat, raw: Text)
    requires NoLoneCr(bytes) && i == LineEnd(bytes) < |bytes| && raw == bytes[..NextLine(bytes, i) - 1]
    ensures bytes == raw + [LF] + bytes[NextLine(bytes, i)..]
    ensures LF !in raw && WithoutCr(raw) == bytes[..i]
  {
    if bytes[i] == CR {
      assert raw == bytes[..i] + [CR];
    } else {
      assert raw == bytes[..i];
    }
  }

  lemma SplitFirst(bytes: Text)
    requires LineEnd(bytes) < |bytes|
    ensures var (lines, rest) := SplitLines(bytes[NextLine(bytes, LineEnd(bytes))..]);
            && SplitLines(bytes) == ([bytes[..LineEnd(bytes)]] + lines, rest)
            && SplitLines(bytes).0[1..] == lines
  {}

  lemma NoLoneCrAfter(bytes: Text, n: nat)
    requires NoLoneCr(bytes) && n <= |bytes|
    ensures NoLoneCr(bytes[n..])
  {}

  /** Without a lone CR the parser sees the lines of the Standard. */
  lemma {:induction false} LinesAgree(s: Stream, bytes: Text, c: Config)
    requires NoLoneCr(bytes)
    ensures Feed(Parser([], s), bytes, c) == Parser(SplitLines(bytes).1, Effects(s, SplitLines(bytes).0, c))
    decreases |bytes|
  {
    var i := LineEnd(bytes);
    if i == |bytes| {
      assert bytes[..i] == bytes && [] + bytes == bytes;
      FeedPlain(Parser([], s), bytes, c);
    } else {
      var next := NextLine(bytes, i);
      var raw, rest := bytes[..next - 1], bytes[next..];
      RawAgrees(bytes, i, raw);
      FeedLine(s, raw, rest, c);
      NoLoneCrAfter(bytes, next);
      LinesAgree(Line(s, raw, c), rest, c);
      SplitFirst(bytes);
    }
  }

  // ---------- events agree

  /** An id that was never set is the empty string. */
  function IdText(id: Option<Text>): Text {
    if id.Some? then id.value else []
  }

  predicate Same(e: Event, standard: StandardEvent) {
    e.event == standard.kind && e.data == standard.data && IdText(e.id) == standard.id
  }

  /** The messages are the events: the same types, data and ids. */
  predicate Says(messages: seq<Message>, events: seq<StandardEvent>) {
    |messages| == |events| && forall i :: 0 <= i < |events| ==> messages[i].Ok? && Same(messages[i].event, events[i])
  }

  /** After what was sent before, the consumer got the events, as many as it took. */
  predicate Sent(s: Stream, before: Stream, events: seq<StandardEvent>) {
    && before.sent <= s.sent && s.room == Max(before.room - |events|, 0)
    && Says(s.sent[|before.sent|..], events[..Min(before.room, |events|)])
  }

  /** The data buffer: a line feed after each value. */
  function Buffer(values: seq<Text>): Text {
    if values == [] then [] else Buffer(values[..|values| - 1]) + values[|values| - 1] + [LF]
  }

  lemma {:induction false} BufferJoin(values: seq<Text>)
    requires values != []
    ensures Buffer(values) == Join(values) + [LF]
  {
    if |values| == 1 {
      assert Buffer(values[..0]) == [];
    } else {
      BufferJoin(values[..|values| - 1]);
    }
  }

  lemma BufferPush(values: seq<Text>, value: Text)
    ensures Buffer(values + [value]) == Buffer(values) + value + [LF]
  {
    assert (values + [value])[..|values|] == values;
  }

  /** The id that a blank line would leave. */
  function IdHeld(s: Stream): Text {
    IdText(if s.pending.id.Some? then s.pending.id else s.lastId)
  }

  /** What the parser holds is what the buffers hold. */
  predicate Holds(s: Stream, t: Interpreter) {
    && t.data == Buffer(s.pending.data)
    && s.pending.event != Some([]) && t.kind == IdText(s.pending.event)
    && t.id == IdHeld(s)
    && t.lastId == IdText(s.lastId)
  }

  lemma SentPush(s: Stream, s': Stream, before: Stream, events: seq<StandardEvent>, e: Event, next: StandardEvent)
    requires Sent(s, before, events) && Same(e, next)
    requires if s.room > 0 then s'.sent == s.sent + [Ok(e)] && s'.room == s.room - 1 else SameSent(s', s)
    ensures Sent(s', before, events + [next])
  {
    var taken := s.sent[|before.sent|..];
    if s.room > 0 {
      assert s'.sent[|before.sent|..] == taken + [Ok(e)];
      assert events[..Min(before.room, |events|)] == events;
      assert (events + [next])[..Min(before.room, |events| + 1)] == events + [next];
    } else {
      assert (events + [next])[..before.room] == events[..before.room];
    }
  }

  lemma FlushHolds(s: Stream, t: Interpreter, maxDelay: nat)
    requires Holds(s, t)
    ensures Holds(Flush(s, maxDelay), Dispatch(t))
  {}

  lemma FlushSends(s: Stream, t: Interpreter, before: Stream, maxDelay: nat)
    requires Holds(s, t) && Sent(s, before, t.events)
    ensures Sent(Flush(s, maxDelay), before, Dispatch(t).events)
  {
    var s', values := Flush(s, maxDelay), s.pending.data;
    if values != [] {
      BufferJoin(values);
      var kind := if s.pending.event.Some? then s.pending.event.value else MESSAGE;
      var e := Event(kind, Join(values), s'.lastId, s'.delay);
      assert t.data[..|t.data| - 1] == Join(values);
      SentPush(s, s', before, t.events, e, StandardEvent(kind, Join(values), t.id));
    }
  }

  lemma FieldHolds(s: Stream, t: Interpreter, field: Text, value: Text)
    requires Holds(s, t) && !(field == EVENT && value == [])
    ensures Holds(s.(pending := SetField(s.pending, field, value)), ProcessField(t, field, value))
  {
    if field == DATA {
      BufferPush(s.pending.data, value);
    }
  }

  lemma {:induction false} LineHolds(s: Stream, t: Interpreter, before: Stream, line: Text, maxDelay: nat)
    requires Holds(s, t) && Sent(s, before, t.events) && !EmptyType(line)
    ensures Holds(Effect(s, line, maxDelay), ProcessLine(t, line))
    ensures Sent(Effect(s, line, maxDelay), before, ProcessLine(t, line).events)
  {
    if line == [] {
      FlushHolds(s, t, maxDelay);
      FlushSends(s, t, before, maxDelay);
    } else if line[0] != COLON {
      FieldHolds(s, t, FieldOf(line), ValueOf(line));
    }
  }

  lemma {:induction false} LinesHold(s: Stream, t: Interpreter, before: Stream, lines: seq<Text>, c: Config)
    requires Holds(s, t) && Sent(s, before, t.events) && NoEmptyType(lines, c)
    ensures Holds(Effects(s, lines, c), Interpret(t, lines, c))
    ensures Sent(Effects(s, lines, c), before, Interpret(t, lines, c).events)
    decreases |lines|
  {
    if lines != [] {
      var line := c.lossy(lines[0]);
      LineHolds(s, t, before, line, c.maxDelay);
      LinesHold(Effect(s, line, c.maxDelay), ProcessLine(t, line), before, lines[1..], c);
    }
  }

  /** Up to the end of the stream the consumer gets the Standard's events. */
  lemma EventsAgree(s: Stream, bytes: Text, c: Config)
    requires Common(bytes, c) && IdText(s.lastId) == []
    ensures var p := Feed(Fresh(s), bytes, c);
            && p.buf == SplitLines(bytes).1
            && Holds(p.stream, Standard(bytes, c)) && Sent(p.stream, s, Standard(bytes, c).events)
  {
    LinesAgree(Fresh(s).stream, bytes, c);
    LinesHold(Fresh(s).stream, START, s, SplitLines(bytes).0, c);
  }

  // ---------- the end of the stream

  lemma {:induction false} RestIsPlain(bytes: Text)
    ensures CR !in SplitLines(bytes).1
    decreases |bytes|
  {
    var i := LineEnd(bytes);
    if i == |bytes| {
      assert bytes[..i] == bytes;
    } else {
      RestIsPlain(bytes[NextLine(bytes, i)..]);
    }
  }

  lemma FieldData(p: Pending, field: Text, value: Text)
    ensures SetField(p, field, value).data == if field == DATA then p.data + [value] else p.data
  {}

  /** The end sends at most one more event: the unfinished one. */
  lemma FinishSends(p: Parser, t: Interpreter, c: Config)
    requires Holds(p.stream, t) && CR !in p.buf
    ensures if Unfinished(t, p.buf, c) && p.stream.room > 0 then |Finish(p, c).sent| == |p.stream.sent| + 1
            else SameSent(Finish(p, c), p.stream)
  {
    assert WithoutCr(p.buf) == p.buf;
    var line := c.lossy(p.buf);
    if p.buf != [] && line != [] && line[0] != COLON {
      FieldData(p.stream.pending, FieldOf(line), ValueOf(line));
    }
  }

  /** Whatever the chunks, the consumer gets exactly the Standard's events if and
      only if the stream leaves no data unfinished or the consumer is gone by then. */
  lemma AgreesWithStandard(s: Stream, chunks: seq<Text>, c: Config)
    requires Common(Concat(chunks), c) && IdText(s.lastId) == []
    ensures var t := Standard(Concat(chunks), c);
            Sent(BodyRead(s, chunks, c), s, t.events) <==>
              !Unfinished(t, SplitLines(Concat(chunks)).1, c) || s.room <= |t.events|
  {
    var bytes := Concat(chunks);
    EventsAgree(s, bytes, c);
    RestIsPlain(bytes);
    FinishSends(Feed(Fresh(s), bytes, c), Standard(bytes, c), c);
    BodyAgrees(s, chunks, c);
  }

  // ---------- what is kept for the next connection

  /** The id buffer once the unfinished line is read too. */
  function IdAtEnd(t: Interpreter, rest: Text, c: Config): Text {
    if rest == [] then t.id else ProcessLine(t, c.lossy(rest)).id
  }

  lemma LineId(s: Stream, t: Interpreter, line: Text, maxDelay: nat)
    requires t.id == IdHeld(s)
    ensures ProcessLine(t, line).id == IdHeld(Effect(s, line, maxDelay))
  {}

  lemma FinishId(p: Parser, t: Interpreter, c: Config)
    requires Holds(p.stream, t) && CR !in p.buf
    ensures IdText(Finish(p, c).lastId) == IdAtEnd(t, p.buf, c)
  {
    assert WithoutCr(p.buf) == p.buf;
    LineId(p.stream, t, c.lossy(p.buf), c.maxDelay);
  }

  /** The id to resume from is the Standard's if and only if the stream does not
      end between a different id and the blank line after it. */
  lemma IdAgrees(s: Stream, chunks: seq<Text>, c: Config)
    requires Common(Concat(chunks), c) && IdText(s.lastId) == [] && BodyRead(s, chunks, c).room > 0
    ensures var t := Standard(Concat(chunks), c);
            IdText(BodyRead(s, chunks, c).lastId) == t.lastId <==>
              IdAtEnd(t, SplitLines(Concat(chunks)).1, c) == t.lastId
  {
    var bytes := Concat(chunks);
    EventsAgree(s, bytes, c);
    RestIsPlain(bytes);
    FinishId(Feed(Fresh(s), bytes, c), Standard(bytes, c), c);
    BodyAgrees(s, chunks, c);
  }

  /** The reconnection time within the bounds of the host. */
  function DelayOf(retry: Option<nat>, delay: nat, maxDelay: nat): nat {
    if retry.Some? then Clamp(retry.value, 1, maxDelay) else delay
  }

  lemma RetrySet(p: Pending, t: Interpreter, field: Text, value: Text)
    ensures SetField(p, field, value).retry
         == if field == RETRY && ParseU64(value).Some? then ParseU64(value) else p.retry
    ensures ProcessField(t, field, value).retry
         == if field == RETRY && RetryOf(value).Some? then RetryOf(value) else t.retry
  {}

  lemma LineDelay(s: Stream, t: Interpreter, delay: nat, line: Text, maxDelay: nat)
    requires DelayOf(s.pending.retry, s.delay, maxDelay) == DelayOf(t.retry, delay, maxDelay) && !OddRetry(line)
    ensures var s' := Effect(s, line, maxDelay);
            DelayOf(s'.pending.retry, s'.delay, maxDelay) == DelayOf(ProcessLine(t, line).retry, delay, maxDelay)
  {
    if line != [] && line[0] != COLON {
      RetrySet(s.pending, t, FieldOf(line), ValueOf(line));
    }
  }

  lemma {:induction false} LinesDelay(s: Stream, t: Interpreter, delay: nat, lines: seq<Text>, c: Config)
    requires NoOddRetry(lines, c)
    requires DelayOf(s.pending.retry, s.delay, c.maxDelay) == DelayOf(t.retry, delay, c.maxDelay)
    ensures var s' := Effects(s, lines, c);
            DelayOf(s'.pending.retry, s'.delay, c.maxDelay) == DelayOf(Interpret(t, lines, c).retry, delay, c.maxDelay)
    decreases |lines|
  {
    if lines != [] {
      var line := c.lossy(lines[0]);
      LineDelay(s, t, delay, line, c.maxDelay);
      LinesDelay(Effect(s, line, c.maxDelay), ProcessLine(t, line), delay, lines[1..], c);
    }
  }

  /** Within the bounds the time is taken as it is. */
  lemma DelayExactly(n: nat, delay: nat, maxDelay: nat)
    requires 1 <= maxDelay
    ensures DelayOf(None, delay, maxDelay) == delay
    ensures DelayOf(Some(n), delay, maxDelay) == if n < 1 then 1 else if n > maxDelay then maxDelay else n
  {}

  lemma OtherLineKeepsDelay(s: Stream, line: Text, maxDelay: nat)
    requires !Names(line, RETRY)
    ensures var s' := Effect(s, line, maxDelay);
            DelayOf(s'.pending.retry, s'.delay, maxDelay) == DelayOf(s.pending.retry, s.delay, maxDelay)
  {
    if line != [] && line[0] != COLON {
      RetrySet(s.pending, START, FieldOf(line), ValueOf(line));
    }
  }

  lemma FinishDelay(p: Parser, c: Config)
    requires CR !in p.buf && !(p.buf != [] && Names(c.lossy(p.buf), RETRY))
    ensures Finish(p, c).delay == DelayOf(p.stream.pending.retry, p.stream.delay, c.maxDelay)
  {
    assert WithoutCr(p.buf) == p.buf;
    if p.buf != [] {
      OtherLineKeepsDelay(p.stream, c.lossy(p.buf), c.maxDelay);
    }
  }

  /** The delay is the Standard's last reconnection time, within the bounds. */
  lemma DelayAgrees(s: Stream, chunks: seq<Text>, c: Config)
    requires var (lines, rest) := SplitLines(Concat(chunks));
             && Common(Concat(chunks), c) && NoOddRetry(lines, c)
             && !(rest != [] && Names(c.lossy(rest), RETRY)) && BodyRead(s, chunks, c).room > 0
    ensures BodyRead(s, chunks, c).delay == DelayOf(Standard(Concat(chunks), c).retry, s.delay, c.maxDelay)
  {
    var bytes := Concat(chunks);
    LinesAgree(Fresh(s).stream, bytes, c);
    LinesDelay(Fresh(s).stream, START, s.delay, SplitLines(bytes).0, c);
    RestIsPlain(bytes);
    FinishDelay(Feed(Fresh(s), bytes, c), c);
    BodyAgrees(s, chunks, c);
  }

  // ---------- lines disagree at a lone CR

  /** The number of line feeds, and so of the lines the parser takes. */
  function LineFeeds(bytes: Text): nat {
    multiset(bytes)[LF]
  }

  lemma NoLoneCrSplit(bytes: Text, i: nat, next: nat)
    requires i == LineEnd(bytes) < |bytes| && next == NextLine(bytes, i)
    ensures NoLoneCr(bytes) <==> bytes[next - 1] == LF && NoLoneCr(bytes[next..])
  {
    assert forall k :: 0 <= k < i ==> bytes[..i][k] == bytes[k];
    assert forall k :: next <= k < |bytes| ==> bytes[next..][k - next] == bytes[k];
  }

  lemma NoLineFeedBefore(bytes: Text, i: nat, next: nat)
    requires i == LineEnd(bytes) < |bytes| && next == NextLine(bytes, i)
    ensures LF !in bytes[..next - 1]
  {
    assert bytes[..next - 1] == if next == i + 1 then bytes[..i] else bytes[..i] + [CR];
  }

  lemma NoLineEnds(bytes: Text)
    requires LineEnd(bytes) == |bytes|
    ensures SplitLines(bytes).0 == [] && LineFeeds(bytes) == 0 && NoLoneCr(bytes)
  {
    assert bytes[..|bytes|] == bytes;
  }

  lemma LineFeedsParts(raw: Text, b: Byte, rest: Text)
    requires LF !in raw
    ensures LineFeeds(raw + [b] + rest) == (if b == LF then 1 else 0) + LineFeeds(rest)
  {
    assert multiset(raw + [b] + rest) == multiset(raw) + multiset{b} + multiset(rest);
  }

  lemma LineFeedsFirst(bytes: Text, i: nat, next: nat)
    requires i == LineEnd(bytes) < |bytes| && next == NextLine(bytes, i)
    ensures LineFeeds(bytes) == (if bytes[next - 1] == LF then 1 else 0) + LineFeeds(bytes[next..])
  {
    NoLineFeedBefore(bytes, i, next);
    LineFeedsParts(bytes[..next - 1], bytes[next - 1], bytes[next..]);
    assert bytes == bytes[..next - 1] + [bytes[next - 1]] + bytes[next..];
  }

  /** The Standard sees more lines if and only if there is a lone CR. */
  lemma {:induction false} LoneCrEndsLine(bytes: Text)
    ensures |SplitLines(bytes).0| >= LineFeeds(bytes)
    ensures |SplitLines(bytes).0| == LineFeeds(bytes) <==> NoLoneCr(bytes)
    decreases |bytes|
  {
    var i := LineEnd(bytes);
    if i == |bytes| {
      NoLineEnds(bytes);
    } else {
      var next := NextLine(bytes, i);
      LoneCrEndsLine(bytes[next..]);
      SplitFirst(bytes);
      LineFeedsFirst(bytes, i, next);
      NoLoneCrSplit(bytes, i, next);
    }
  }
}
