/** Events written as an event stream and parsed back. */
module SseRoundTrip {
  import opened Basics
  import opened Bytes
  import opened SseParser

  /** The choices the format leaves to the writer of a line: no colon where the
      value is empty, a space after the colon, CRLF or LF, and comments before the
      line. */
  datatype Style = Style(bare: bool, space: bool, crlf: bool, comments: seq<Text>)

  datatype Styled = Styled(value: Text, style: Style)

  /** An event to write: its type and id if it has them, its data lines. */
  datatype Source = Source(event: Option<Styled>, id: Option<Styled>, data: seq<Styled>, end: Style)

  function EndOfLine(style: Style): Text {
    if style.crlf then [CR, LF] else [LF]
  }

  function WriteComments(comments: seq<Text>, style: Style): Text {
    if comments == [] then [] else [COLON] + comments[0] + EndOfLine(style) + WriteComments(comments[1..], style)
  }

  function WriteLine(line: Text, style: Style): Text {
    WriteComments(style.comments, style) + (line + EndOfLine(style))
  }

  function FieldLine(name: Text, v: Styled): Text {
    if v.style.bare && v.value == [] then name
    else name + [COLON] + ((if v.style.space then [SPACE] else []) + v.value)
  }

  function WriteData(data: seq<Styled>): Text {
    if data == [] then [] else WriteLine(FieldLine(DATA, data[0]), data[0].style) + WriteData(data[1..])
  }

  function WriteOption(name: Text, v: Option<Styled>): Text {
    if v.None? then [] else WriteLine(FieldLine(name, v.value), v.value.style)
  }

  function Write(e: Source): Text {
    (WriteOption(EVENT, e.event) + WriteOption(ID, e.id)) + (WriteData(e.data) + WriteLine([], e.end))
  }

  function WriteAll(es: seq<Source>): Text {
    if es == [] then [] else Write(es[0]) + WriteAll(es[1..])
  }

  // ---------- what is to be read back

  function Values(data: seq<Styled>): seq<Text> {
    seq(|data|, i requires 0 <= i < |data| => data[i].value)
  }

  function IdAfter(e: Source, lastId: Option<Text>): Option<Text> {
    if e.id.Some? then Some(e.id.value.value) else lastId
  }

  function EventOf(e: Source, lastId: Option<Text>, delay: nat): Event {
    Event(if e.event.Some? then e.event.value.value else MESSAGE, Join(Values(e.data)), IdAfter(e, lastId), delay)
  }

  /** The same types, data and ids in order; an id lasts until the next one. */
  function EventsOf(es: seq<Source>, lastId: Option<Text>, delay: nat): seq<Message> {
    if es == [] then []
    else [Ok(EventOf(es[0], lastId, delay))] + EventsOf(es[1..], IdAfter(es[0], lastId), delay)
  }

  function LastIdOf(es: seq<Source>, lastId: Option<Text>): Option<Text> {
    if es == [] then lastId else LastIdOf(es[1..], IdAfter(es[0], lastId))
  }

  // ---------- what can be written

  predicate OneLine(s: Text) {
    CR !in s && LF !in s
  }

  /** One line of valid text. */
  predicate Clean(line: Text, c: Config) {
    OneLine(line) && c.lossy(line) == line
  }

  predicate StyleOk(style: Style, c: Config) {
    forall i :: 0 <= i < |style.comments| ==> Clean([COLON] + style.comments[i], c)
  }

  /** A value that starts with a space is written after a space. */
  predicate FieldOk(name: Text, v: Styled, c: Config) {
    && Clean(FieldLine(name, v), c) && StyleOk(v.style, c)
    && (v.value != [] && v.value[0] == SPACE ==> v.style.space)
  }

  predicate SourceOk(e: Source, c: Config) {
    && (e.event.Some? ==> FieldOk(EVENT, e.event.value, c))
    && (e.id.Some? ==> FieldOk(ID, e.id.value, c) && NUL !in e.id.value.value)
    && e.data != [] && (forall i :: 0 <= i < |e.data| ==> FieldOk(DATA, e.data[i], c))
    && StyleOk(e.end, c) && c.lossy([]) == []
  }

  // ---------- reading back

  /** Reading the bytes, which end with a line, takes the parser from one state to the other. */
  ghost predicate Leads(s: Stream, bytes: Text, s': Stream, c: Config) {
    Feed(Parser([], s), bytes, c) == Parser([], s')
  }

  lemma LeadsThen(s: Stream, a: Text, s1: Stream, b: Text, s2: Stream, c: Config)
    requires Leads(s, a, s1, c) && Leads(s1, b, s2, c)
    ensures Leads(s, a + b, s2, c)
  {
    FeedConcat(Parser([], s), a, b, c);
  }

  /** The bytes of a line before its line feed. */
  function RawLine(line: Text, style: Style): Text {
    if style.crlf then line + [CR] else line
  }

  lemma RawLineOk(line: Text, style: Style)
    requires OneLine(line)
    ensures LF !in RawLine(line, style) && WithoutCr(RawLine(line, style)) == line
    ensures RawLine(line, style) + [LF] + [] == line + EndOfLine(style)
  {}

  lemma LeadsEnded(s: Stream, line: Text, style: Style, c: Config)
    requires Clean(line, c)
    ensures Leads(s, line + EndOfLine(style), Effect(s, line, c.maxDelay), c)
  {
    RawLineOk(line, style);
    FeedLine(s, RawLine(line, style), [], c);
  }

  lemma {:induction false} LeadsComments(s: Stream, comments: seq<Text>, style: Style, c: Config)
    requires forall i :: 0 <= i < |comments| ==> Clean([COLON] + comments[i], c)
    ensures Leads(s, WriteComments(comments, style), s, c)
  {
    if comments != [] {
      var line := [COLON] + comments[0];
      LeadsEnded(s, line, style, c);
      LeadsComments(s, comments[1..], style, c);
      LeadsThen(s, line + EndOfLine(style), s, WriteComments(comments[1..], style), s, c);
    }
  }

  lemma LeadsWritten(s: Stream, line: Text, style: Style, c: Config)
    requires Clean(line, c) && StyleOk(style, c)
    ensures Leads(s, WriteLine(line, style), Effect(s, line, c.maxDelay), c)
  {
    LeadsComments(s, style.comments, style, c);
    LeadsEnded(s, line, style, c);
    LeadsThen(s, WriteComments(style.comments, style), s, line + EndOfLine(style), Effect(s, line, c.maxDelay), c);
  }

  /** A line without a colon is a field with an empty value; otherwise the value is
      what follows the first colon, without one space in front of it. */
  lemma FieldAndValue(name: Text, value: Text)
    requires COLON !in name
    ensures FieldOf(name) == name && ValueOf(name) == []
    ensures FieldOf(name + [COLON] + value) == name
    ensures ValueOf(name + [COLON] + ([SPACE] + value)) == value
    ensures value == [] || value[0] != SPACE ==> ValueOf(name + [COLON] + value) == value
  {
    assert IndexOf(name, COLON) == |name|;
    IndexOfPlain(name, COLON, value);
    IndexOfPlain(name, COLON, [SPACE] + value);
    assert (name + [COLON] + ([SPACE] + value))[|name| + 2..] == value;
    assert (name + [COLON] + value)[|name| + 1..] == value;
  }

  lemma FieldEffect(s: Stream, name: Text, v: Styled, c: Config)
    requires FieldOk(name, v, c) && name != [] && COLON !in name
    ensures Effect(s, FieldLine(name, v), c.maxDelay) == s.(pending := SetField(s.pending, name, v.value))
  {
    FieldAndValue(name, v.value);
    FieldAndValue(name, [SPACE] + v.value);
    assert FieldLine(name, v)[0] == name[0] && [] + v.value == v.value;
    assert FieldOf(FieldLine(name, v)) == name && ValueOf(FieldLine(name, v)) == v.value;
  }

  function WithData(s: Stream, values: seq<Text>): Stream {
    s.(pending := s.pending.(data := s.pending.data + values))
  }

  lemma LeadsDataLine(s: Stream, v: Styled, c: Config)
    requires FieldOk(DATA, v, c)
    ensures Leads(s, WriteLine(FieldLine(DATA, v), v.style), WithData(s, [v.value]), c)
  {
    LeadsWritten(s, FieldLine(DATA, v), v.style, c);
    FieldEffect(s, DATA, v, c);
  }

  lemma WithDataTwice(s: Stream, data: seq<Styled>)
    requires data != []
    ensures WithData(WithData(s, [data[0].value]), Values(data[1..])) == WithData(s, Values(data))
  {
    assert Values(data) == [data[0].value] + Values(data[1..]);
    Associative(s.pending.data, [data[0].value], Values(data[1..]));
  }

  lemma {:induction false} LeadsData(s: Stream, data: seq<Styled>, c: Config)
    requires forall i :: 0 <= i < |data| ==> FieldOk(DATA, data[i], c)
    ensures Leads(s, WriteData(data), WithData(s, Values(data)), c)
    decreases |data|
  {
    if data == [] {
      assert s.pending.data + [] == s.pending.data;
    } else {
      var s' := WithData(s, [data[0].value]);
      LeadsDataLine(s, data[0], c);
      LeadsData(s', data[1..], c);
      WithDataTwice(s, data);
      LeadsThen(s, WriteLine(FieldLine(DATA, data[0]), data[0].style), s', WriteData(data[1..]),
                WithData(s, Values(data)), c);
    }
  }

  function WithField(s: Stream, name: Text, v: Option<Styled>): Stream {
    if v.None? then s else s.(pending := SetField(s.pending, name, v.value.value))
  }

  lemma LeadsOption(s: Stream, name: Text, v: Option<Styled>, c: Config)
    requires v.Some? ==> FieldOk(name, v.value, c)
    requires name != [] && COLON !in name
    ensures Leads(s, WriteOption(name, v), WithField(s, name, v), c)
  {
    if v.Some? {
      LeadsWritten(s, FieldLine(name, v.value), v.value.style, c);
      FieldEffect(s, name, v.value, c);
    }
  }

  /** The stream just before the blank line of the event. */
  function Collected(s: Stream, e: Source): Stream {
    WithData(WithField(WithField(s, EVENT, e.event), ID, e.id), Values(e.data))
  }

  function Received(s: Stream, e: Source): Stream
    requires s.room > 0
  {
    Stream(NO_PENDING, IdAfter(e, s.lastId), s.delay, s.sent + [Ok(EventOf(e, s.lastId, s.delay))], s.room - 1)
  }

  function ValueIfAny(v: Option<Styled>): Option<Text> {
    if v.Some? then Some(v.value.value) else None
  }

  lemma NamedFields(p: Pending, value: Text)
    ensures SetField(p, EVENT, value) == p.(event := Some(value))
    ensures NUL !in value ==> SetField(p, ID, value) == p.(id := Some(value))
  {
    assert |EVENT| != |ID| && |ID| != |DATA|;
  }

  lemma HeadFields(s: Stream, e: Source)
    requires s.pending == NO_PENDING && (e.id.Some? ==> NUL !in e.id.value.value)
    ensures WithField(WithField(s, EVENT, e.event), ID, e.id)
         == s.(pending := Pending(ValueIfAny(e.event), [], ValueIfAny(e.id), None))
  {
    if e.event.Some? {
      NamedFields(s.pending, e.event.value.value);
    }
    if e.id.Some? {
      NamedFields(WithField(s, EVENT, e.event).pending, e.id.value.value);
    }
  }

  lemma CollectedFlush(s: Stream, e: Source, maxDelay: nat)
    requires s.pending == NO_PENDING && s.room > 0 && e.data != [] && (e.id.Some? ==> NUL !in e.id.value.value)
    ensures Flush(Collected(s, e), maxDelay) == Received(s, e)
  {
    HeadFields(s, e);
    assert [] + Values(e.data) == Values(e.data);
  }

  lemma LeadsBody(s: Stream, data: seq<Styled>, end: Style, c: Config)
    requires forall i :: 0 <= i < |data| ==> FieldOk(DATA, data[i], c)
    requires StyleOk(end, c) && Clean([], c)
    ensures Leads(s, WriteData(data) + WriteLine([], end), Flush(WithData(s, Values(data)), c.maxDelay), c)
  {
    var s' := WithData(s, Values(data));
    LeadsData(s, data, c);
    LeadsWritten(s', [], end, c);
    LeadsThen(s, WriteData(data), s', WriteLine([], end), Flush(s', c.maxDelay), c);
  }

  lemma LeadsHead(s: Stream, e: Source, c: Config)
    requires SourceOk(e, c)
    ensures Leads(s, WriteOption(EVENT, e.event) + WriteOption(ID, e.id),
                  WithField(WithField(s, EVENT, e.event), ID, e.id), c)
  {
    var s' := WithField(s, EVENT, e.event);
    LeadsOption(s, EVENT, e.event, c);
    LeadsOption(s', ID, e.id, c);
    LeadsThen(s, WriteOption(EVENT, e.event), s', WriteOption(ID, e.id), WithField(s', ID, e.id), c);
  }

  lemma LeadsEvent(s: Stream, e: Source, c: Config)
    requires s.pending == NO_PENDING && s.room > 0 && SourceOk(e, c)
    ensures Leads(s, Write(e), Received(s, e), c)
  {
    var s' := WithField(WithField(s, EVENT, e.event), ID, e.id);
    LeadsHead(s, e, c);
    LeadsBody(s', e.data, e.end, c);
    CollectedFlush(s, e, c.maxDelay);
    LeadsThen(s, WriteOption(EVENT, e.event) + WriteOption(ID, e.id), s', WriteData(e.data) + WriteLine([], e.end),
              Received(s, e), c);
  }

  function ReceivedAll(s: Stream, es: seq<Source>): Stream
    requires s.room >= |es|
  {
    s.(lastId := LastIdOf(es, s.lastId), sent := s.sent + EventsOf(es, s.lastId, s.delay), room := s.room - |es|)
  }

  lemma ReceivedRest(s: Stream, es: seq<Source>)
    requires s.pending == NO_PENDING && s.room >= |es| && es != []
    ensures ReceivedAll(Received(s, es[0]), es[1..]) == ReceivedAll(s, es)
  {}

  lemma {:induction false} LeadsEvents(s: Stream, es: seq<Source>, c: Config)
    requires s.pending == NO_PENDING && s.room >= |es|
    requires forall i :: 0 <= i < |es| ==> SourceOk(es[i], c)
    ensures Leads(s, WriteAll(es), ReceivedAll(s, es), c)
    decreases |es|
  {
    if es != [] {
      LeadsEvent(s, es[0], c);
      LeadsEvents(Received(s, es[0]), es[1..], c);
      ReceivedRest(s, es);
      LeadsThen(s, Write(es[0]), Received(s, es[0]), WriteAll(es[1..]), ReceivedAll(s, es), c);
    }
  }

  function WithRetry(s: Stream, n: nat): Stream {
    s.(pending := s.pending.(retry := if n <= MAX_U64 then Some(n) else s.pending.retry))
  }

  lemma RetryField(p: Pending, n: nat)
    ensures SetField(p, RETRY, Print(n)) == p.(retry := if n <= MAX_U64 then Some(n) else p.retry)
  {
    assert RETRY[0] != EVENT[0] && |RETRY| != |DATA| && |RETRY| != |ID|;
    PrintParse(n);
  }

  lemma LeadsRetry(s: Stream, n: nat, style: Style, c: Config)
    requires FieldOk(RETRY, Styled(Print(n), style), c)
    ensures Leads(s, WriteLine(FieldLine(RETRY, Styled(Print(n), style)), style), WithRetry(s, n), c)
  {
    RetryField(s.pending, n);
    LeadsWritten(s, FieldLine(RETRY, Styled(Print(n), style)), style, c);
    FieldEffect(s, RETRY, Styled(Print(n), style), c);
  }

  /** A retry field and a blank line set the delay to the number, brought into
      bounds, if it fits in 64 bits; nothing is sent. */
  lemma RetrySetsDelay(s: Stream, n: nat, style: Style, c: Config) returns (s': Stream)
    requires s.pending == NO_PENDING && FieldOk(RETRY, Styled(Print(n), style), c) && Clean([], c)
    ensures Leads(s, WriteLine(FieldLine(RETRY, Styled(Print(n), style)), style) + WriteLine([], style), s', c)
    ensures s' == s.(delay := if n <= MAX_U64 then Clamp(n, 1, c.maxDelay) else s.delay)
    ensures 1 <= n <= c.maxDelay && n <= MAX_U64 ==> s'.delay == n
    ensures 1 <= c.maxDelay < n <= MAX_U64 ==> s'.delay == c.maxDelay
    ensures n == 0 && 1 <= c.maxDelay ==> s'.delay == 1
  {
    s' := Flush(WithRetry(s, n), c.maxDelay);
    LeadsRetry(s, n, style, c);
    LeadsWritten(WithRetry(s, n), [], style, c);
    LeadsThen(s, WriteLine(FieldLine(RETRY, Styled(Print(n), style)), style), WithRetry(s, n),
              WriteLine([], style), s', c);
  }

  /** Events written in any style and cut into any chunks are parsed back: the
      same types, data and ids, in order, and nothing is left over. */
  lemma {:induction false} RoundTrip(s: Stream, es: seq<Source>, chunks: seq<Text>, c: Config)
    requires s.pending == NO_PENDING && s.room >= |es|
    requires forall i :: 0 <= i < |es| ==> SourceOk(es[i], c)
    requires Concat(chunks) == WriteAll(es)
    ensures FeedChunks(Parser([], s), chunks, c) == Parser([], ReceivedAll(s, es))
  {
    FeedAll(Parser([], s), chunks, c);
    LeadsEvents(s, es, c);
  }
}
