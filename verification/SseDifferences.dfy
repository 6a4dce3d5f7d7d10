/** Where the parser of event streams departs from the Standard, for every value
    at which it does: the conditions under which the two agree are all needed. */
module SseDifferences {
  import opened Basics
  import opened Bytes
  import opened SseParser
  import opened SseRoundTrip
  import opened SseStandard

  const BLANK: Text := []

  function DataLine(value: Text): Text {
    DATA + [COLON] + value
  }

  /** One line without a line feed, of valid text, that does not end in CR. */
  predicate Plain(line: Text, c: Config) {
    LF !in line && WithoutCr(line) == line && c.lossy(line) == line
  }

  function Sends(s: Stream, event: Text, data: Text): Stream
    requires s.room > 0
  {
    s.(sent := s.sent + [Ok(Event(event, data, s.lastId, s.delay))], room := s.room - 1)
  }

  lemma LeadsPlain(s: Stream, line: Text, c: Config)
    requires Plain(line, c)
    ensures Leads(s, line + [LF], Effect(s, line, c.maxDelay), c)
  {
    FeedLine(s, line, [], c);
    assert line + [LF] + [] == line + [LF];
  }

  lemma DataEffect(s: Stream, value: Text, maxDelay: nat)
    requires value == [] || value[0] != SPACE
    ensures Effect(s, DataLine(value), maxDelay) == WithData(s, [value])
  {
    IndexOfPlain(DATA, COLON, value);
    assert FieldOf(DataLine(value)) == DATA && DataLine(value)[|DATA| + 1..] == value;
  }

  /** The event that was only given a type and this data is sent. */
  lemma FlushData(s: Stream, event: Option<Text>, value: Text, maxDelay: nat)
    requires s.pending == NO_PENDING.(event := event) && s.room > 0
    ensures Flush(WithData(s, [value]), maxDelay)
         == Sends(s.(pending := NO_PENDING), if event.Some? then event.value else MESSAGE, value)
  {
    assert [] + [value] == [value] && Join([value]) == value;
  }

  /** A data line and a blank line. */
  lemma LeadsDataEvent(s: Stream, value: Text, c: Config)
    requires s.pending == NO_PENDING && s.room > 0 && (value == [] || value[0] != SPACE)
    requires Plain(DataLine(value), c) && Plain([], c)
    ensures Leads(s, DataLine(value) + [LF] + ([] + [LF]), Sends(s, MESSAGE, value), c)
  {
    var s' := WithData(s, [value]);
    LeadsPlain(s, DataLine(value), c);
    DataEffect(s, value, c.maxDelay);
    LeadsPlain(s', [], c);
    FlushData(s, None, value, c.maxDelay);
    LeadsThen(s, DataLine(value) + [LF], s', [] + [LF], Flush(s', c.maxDelay), c);
  }

  // ---------- the Standard on the same streams

  lemma LineEndAt(bytes: Text, i: nat)
    requires i < |bytes| && (bytes[i] == CR || bytes[i] == LF) && OneLine(bytes[..i])
    ensures LineEnd(bytes) == i
  {
    var end := LineEnd(bytes);
    assert forall k :: 0 <= k < i ==> bytes[..i][k] == bytes[k];
    assert forall k :: 0 <= k < end ==> bytes[..end][k] == bytes[k];
  }

  /** The first line ends at the first CR or LF. */
  lemma SplitAt(bytes: Text, i: nat)
    requires i < |bytes| && (bytes[i] == CR || bytes[i] == LF) && OneLine(bytes[..i])
    ensures var (lines, rest) := SplitLines(bytes[NextLine(bytes, i)..]);
            SplitLines(bytes) == ([bytes[..i]] + lines, rest)
  {
    LineEndAt(bytes, i);
    SplitFirst(bytes);
  }

  lemma SplitLine(line: Text, rest: Text)
    requires OneLine(line)
    ensures SplitLines(line + [LF] + rest) == ([line] + SplitLines(rest).0, SplitLines(rest).1)
  {
    var bytes := line + [LF] + rest;
    SplitAt(bytes, |line|);
    assert bytes[..|line|] == line && bytes[|line| + 1..] == rest;
  }

  lemma SplitNone(line: Text)
    requires OneLine(line)
    ensures SplitLines(line) == ([], line)
  {
    assert forall k :: 0 <= k < |line| ==> line[k] != CR && line[k] != LF;
  }

  lemma SplitOne(line: Text)
    requires OneLine(line)
    ensures SplitLines(line + [LF]) == ([line], [])
  {
    SplitLine(line, []);
    assert line + [LF] + [] == line + [LF] && [line] + [] == [line] && SplitLines([]) == ([], []);
  }

  lemma ProcessData(t: Interpreter, value: Text)
    requires value == [] || value[0] != SPACE
    ensures ProcessLine(t, DataLine(value)) == t.(data := t.data + value + [LF])
  {
    IndexOfPlain(DATA, COLON, value);
    assert FieldOf(DataLine(value)) == DATA && DataLine(value)[|DATA| + 1..] == value;
  }

  lemma InterpretFirst(t: Interpreter, line: Text, lines: seq<Text>, c: Config)
    requires Plain(line, c)
    ensures Interpret(t, [line] + lines, c) == Interpret(ProcessLine(t, line), lines, c)
  {
    assert ([line] + lines)[1..] == lines;
  }

  /** The type, data and id of the event that a data line and a blank line are. */
  function DataEvent(value: Text): seq<StandardEvent> {
    [StandardEvent(MESSAGE, value, [])]
  }

  lemma DispatchData(value: Text)
    ensures Dispatch(START.(data := [] + value + [LF])).events == DataEvent(value)
  {
    assert [] + value + [LF] == value + [LF] && (value + [LF])[..|value|] == value;
  }

  /** A data line and a blank line are one event of the default type. */
  lemma InterpretDataEvent(value: Text, c: Config)
    requires Plain(DataLine(value), c) && Plain([], c) && (value == [] || value[0] != SPACE)
    ensures Interpret(START, [DataLine(value)] + [BLANK], c).events == DataEvent(value)
  {
    var t := ProcessLine(START, DataLine(value));
    InterpretFirst(START, DataLine(value), [BLANK], c);
    InterpretFirst(t, BLANK, [], c);
    assert [BLANK] + [] == [BLANK];
    ProcessData(START, value);
    DispatchData(value);
  }

  lemma SplitDataEvent(value: Text)
    requires OneLine(value)
    ensures SplitLines(DataLine(value) + [LF] + ([] + [LF])) == ([DataLine(value)] + [BLANK], [])
  {
    SplitLine(DataLine(value), [] + [LF]);
    SplitOne([]);
  }

  lemma StandardUnmarked(bytes: Text, c: Config)
    requires bytes != [] && bytes[0] != BOM[0]
    ensures Standard(bytes, c) == Interpret(START, SplitLines(bytes).0, c)
  {}

  lemma DataIsNoMark(value: Text, end: Text, rest: Text)
    ensures !(BOM <= DataLine(value) + end + rest)
  {
    assert (DataLine(value) + end + rest)[0] == DATA[0] != BOM[0];
  }

  lemma StandardDataEvent(value: Text, c: Config)
    requires Plain(DataLine(value), c) && Plain([], c) && (value == [] || value[0] != SPACE) && OneLine(value)
    ensures Standard(DataLine(value) + [LF] + ([] + [LF]), c).events == DataEvent(value)
  {
    SplitDataEvent(value);
    InterpretDataEvent(value, c);
    DataIsNoMark(value, [LF], BLANK + [LF]);
  }

  lemma {:induction false} EventsStay(t: Interpreter, lines: seq<Text>, c: Config)
    ensures t.events <= Interpret(t, lines, c).events
    decreases |lines|
  {
    if lines != [] {
      EventsStay(ProcessLine(t, c.lossy(lines[0])), lines[1..], c);
    }
  }

  /** Data that a line feed follows keeps that line feed, unless it ends the event. */
  lemma {:induction false} FirstData(t: Interpreter, before: Text, lines: seq<Text>, c: Config)
    requires t.events == [] && before + [LF] <= t.data
    ensures var events := Interpret(t, lines, c).events;
            events == [] || events[0].data == before || before + [LF] <= events[0].data
    decreases |lines|
  {
    if lines != [] {
      var line := c.lossy(lines[0]);
      if line == [] {
        EventsStay(Dispatch(t), lines[1..], c);
      } else {
        FirstData(ProcessLine(t, line), before, lines[1..], c);
      }
    }
  }

  lemma CrIsNotLf(before: Text, after: Text, data: Text)
    requires data == before || before + [LF] <= data
    ensures data != before + [CR] + after
  {
    assert (before + [CR] + after)[|before|] == CR && (before + [LF])[|before|] == LF;
  }

  lemma LoneCrInData(before: Text, after: Text, lines: seq<Text>, c: Config)
    requires Plain(DataLine(before), c) && before != [] && before[0] != SPACE
    ensures var events := Interpret(START, [DataLine(before)] + lines, c).events;
            events == [] || events[0].data != before + [CR] + after
  {
    var t := ProcessLine(START, DataLine(before));
    InterpretFirst(START, DataLine(before), lines, c);
    ProcessData(START, before);
    assert [] + before + [LF] == before + [LF];
    FirstData(t, before, lines, c);
    if Interpret(t, lines, c).events != [] {
      CrIsNotLf(before, after, Interpret(t, lines, c).events[0].data);
    }
  }

  lemma LoneCrSplits(before: Text, after: Text, rest: Text, c: Config)
    requires Plain(DataLine(before), c) && OneLine(before) && before != [] && before[0] != SPACE && LF !in after
    ensures var events := Standard(DataLine(before + [CR] + after) + [LF] + rest, c).events;
            events == [] || events[0].data != before + [CR] + after
  {
    var bytes := DataLine(before + [CR] + after) + [LF] + rest;
    assert bytes[0] != BOM[0] && bytes[|DataLine(before)|] == CR && bytes[..|DataLine(before)|] == DataLine(before);
    SplitAt(bytes, |DataLine(before)|);
    var lines := SplitLines(bytes[NextLine(bytes, |DataLine(before)|)..]).0;
    LoneCrInData(before, after, lines, c);
  }

  // ---------- the differences

  /** A lone CR does not end a line: it stays inside the data, where the Standard
      sees two lines. */
  lemma LoneCrStaysInData(s: Stream, before: Text, after: Text, c: Config)
    requires s.pending == NO_PENDING && s.room > 0 && before != [] && before[0] != SPACE
    requires Plain(DataLine(before + [CR] + after), c) && Plain([], c)
    ensures Leads(s, DataLine(before + [CR] + after) + [LF] + ([] + [LF]), Sends(s, MESSAGE, before + [CR] + after), c)
    ensures OneLine(before) && Plain(DataLine(before), c) ==>
              var events := Standard(DataLine(before + [CR] + after) + [LF] + ([] + [LF]), c).events;
              events == [] || events[0].data != before + [CR] + after
  {
    if OneLine(before) && Plain(DataLine(before), c) {
      LoneCrSplits(before, after, [] + [LF], c);
    }
    LeadsDataEvent(s, before + [CR] + after, c);
  }

  lemma UnknownField(p: Pending, field: Text, value: Text)
    requires |field| > 5
    ensures SetField(p, field, value) == p
  {}

  lemma BomEffect(s: Stream, value: Text, maxDelay: nat)
    ensures Effect(s, BOM + DataLine(value), maxDelay) == s
  {
    var line, field := BOM + DataLine(value), BOM + DATA;
    assert line == field + [COLON] + value && line[0] == 239;
    IndexOfPlain(field, COLON, value);
    assert FieldOf(line) == field && |field| == 7;
    UnknownField(s.pending, field, ValueOf(line));
  }

  /** The Standard reads past one mark. */
  lemma StandardMarked(bytes: Text, c: Config)
    requires !(BOM <= bytes)
    ensures Standard(BOM + bytes, c) == Standard(bytes, c)
  {
    assert (BOM + bytes)[|BOM|..] == bytes;
  }

  lemma StandardMarkedEvent(value: Text, c: Config)
    requires Plain(DataLine(value), c) && Plain([], c) && (value == [] || value[0] != SPACE) && OneLine(value)
    ensures Standard(BOM + DataLine(value) + [LF] + ([] + [LF]), c).events == DataEvent(value)
  {
    DataIsNoMark(value, [LF], BLANK + [LF]);
    Associative(BOM, DataLine(value), [LF]);
    Associative(BOM, DataLine(value) + [LF], BLANK + [LF]);
    StandardMarked(DataLine(value) + [LF] + (BLANK + [LF]), c);
    StandardDataEvent(value, c);
  }

  /** A byte order mark is not stripped: it hides the field it precedes, and so
      the event. */
  lemma BomHidesField(s: Stream, value: Text, c: Config)
    requires s.pending == NO_PENDING && Plain(BOM + DataLine(value), c)
    ensures Leads(s, BOM + DataLine(value) + [LF], s, c)
    ensures Plain([], c) ==> Leads(s, BOM + DataLine(value) + [LF] + ([] + [LF]), s, c)
    ensures Plain([], c) && OneLine(value) && Plain(DataLine(value), c) && (value == [] || value[0] != SPACE) ==>
              Standard(BOM + DataLine(value) + [LF] + ([] + [LF]), c).events == DataEvent(value)
  {
    LeadsPlain(s, BOM + DataLine(value), c);
    BomEffect(s, value, c.maxDelay);
    if Plain([], c) {
      LeadsPlain(s, [], c);
      LeadsThen(s, BOM + DataLine(value) + [LF], s, [] + [LF], s, c);
      if OneLine(value) && Plain(DataLine(value), c) && (value == [] || value[0] != SPACE) {
        StandardMarkedEvent(value, c);
      }
    }
  }

  lemma DataIsOneLine(value: Text)
    requires OneLine(value)
    ensures OneLine(DataLine(value))
  {
    assert OneLine(DATA + [COLON]);
  }

  lemma StandardUnfinished(value: Text, c: Config)
    requires OneLine(value)
    ensures Standard(DataLine(value), c).events == []
  {
    StandardUnmarked(DataLine(value), c);
    DataIsOneLine(value);
    SplitNone(DataLine(value));
  }

  /** An unfinished event is dispatched at the end of the stream. */
  lemma UnfinishedEventIsSent(s: Stream, value: Text, c: Config)
    requires s.pending == NO_PENDING && s.room > 0 && (value == [] || value[0] != SPACE) && Plain(DataLine(value), c)
    ensures Finish(Feed(Parser([], s), DataLine(value), c), c) == Sends(s, MESSAGE, value)
    ensures OneLine(value) ==> Standard(DataLine(value), c).events == []
  {
    if OneLine(value) {
      StandardUnfinished(value, c);
    }
    FeedPlain(Parser([], s), DataLine(value), c);
    assert [] + DataLine(value) == DataLine(value);
    DataEffect(s, value, c.maxDelay);
    FlushData(s, None, value, c.maxDelay);
  }

  lemma EmptyTypeEffect(s: Stream, maxDelay: nat)
    ensures Effect(s, EVENT + [COLON], maxDelay) == s.(pending := s.pending.(event := Some([])))
  {
    IndexOfPlain(EVENT, COLON, []);
    assert EVENT + [COLON] + [] == EVENT + [COLON] && FieldOf(EVENT + [COLON]) == EVENT;
  }

  lemma ProcessEmptyType(t: Interpreter)
    ensures ProcessLine(t, EVENT + [COLON]) == t.(kind := [])
  {
    IndexOfPlain(EVENT, COLON, []);
    assert EVENT + [COLON] + [] == EVENT + [COLON] && FieldOf(EVENT + [COLON]) == EVENT;
  }

  lemma StandardEmptyType(value: Text, c: Config)
    requires Plain(EVENT + [COLON], c) && Plain(DataLine(value), c) && Plain([], c) && OneLine(value)
    requires value == [] || value[0] != SPACE
    ensures Standard(EVENT + [COLON] + [LF] + (DataLine(value) + [LF] + ([] + [LF])), c).events == DataEvent(value)
  {
    var line, rest := EVENT + [COLON], DataLine(value) + [LF] + ([] + [LF]);
    SplitLine(line, rest);
    SplitDataEvent(value);
    ProcessEmptyType(START);
    InterpretFirst(START, line, [DataLine(value)] + [BLANK], c);
    InterpretDataEvent(value, c);
    assert (line + [LF] + rest)[0] == EVENT[0] != BOM[0];
    StandardUnmarked(line + [LF] + rest, c);
  }

  /** An empty `event` field gives an event of the empty type. */
  lemma EmptyTypeIsKept(s: Stream, value: Text, c: Config)
    requires s.pending == NO_PENDING && s.room > 0 && (value == [] || value[0] != SPACE)
    requires Plain(EVENT + [COLON], c) && Plain(DataLine(value), c) && Plain([], c)
    ensures Leads(s, EVENT + [COLON] + [LF] + (DataLine(value) + [LF] + ([] + [LF])), Sends(s, [], value), c)
    ensures OneLine(value) ==>
              Standard(EVENT + [COLON] + [LF] + (DataLine(value) + [LF] + ([] + [LF])), c).events == DataEvent(value)
  {
    if OneLine(value) {
      StandardEmptyType(value, c);
    }
    var s1 := s.(pending := NO_PENDING.(event := Some([])));
    var s2 := WithData(s1, [value]);
    LeadsPlain(s, EVENT + [COLON], c);
    EmptyTypeEffect(s, c.maxDelay);
    LeadsPlain(s1, DataLine(value), c);
    DataEffect(s1, value, c.maxDelay);
    LeadsPlain(s2, [], c);
    FlushData(s1, Some([]), value, c.maxDelay);
    LeadsThen(s1, DataLine(value) + [LF], s2, [] + [LF], Sends(s, [], value), c);
    LeadsThen(s, EVENT + [COLON] + [LF], s1, DataLine(value) + [LF] + ([] + [LF]), Sends(s, [], value), c);
  }

  /** A number may carry a plus sign, which the digits-only rule of the Standard ignores. */
  lemma PlusSignIsRead(n: nat)
    requires n <= MAX_U64
    ensures ParseU64([PLUS] + Print(n)) == Some(n) && RetryOf([PLUS] + Print(n)) == None
  {
    PrintParse(n);
    assert ([PLUS] + Print(n))[1..] == Print(n) && IsDigit(Print(n)[0]);
  }

  lemma SentOne(s: Stream, value: Text)
    requires s.room > 0
    ensures Sent(Sends(s, MESSAGE, value), s, DataEvent(value)) <==> IdText(s.lastId) == []
  {
    var e := Ok(Event(MESSAGE, value, s.lastId, s.delay));
    assert Sends(s, MESSAGE, value).sent[|s.sent|..] == [e];
    assert DataEvent(value)[..Min(s.room, 1)] == DataEvent(value);
    assert Says([e], DataEvent(value)) <==> Same(e.event, DataEvent(value)[0]);
  }

  /** The last id outlives the connection, where the buffer of the Standard
      starts empty: the ids agree if and only if there was none. */
  lemma IdIsCarriedOver(s: Stream, value: Text, c: Config)
    requires s.pending == NO_PENDING && s.room > 0 && (value == [] || value[0] != SPACE) && OneLine(value)
    requires Plain(DataLine(value), c) && Plain([], c)
    ensures Leads(s, DataLine(value) + [LF] + ([] + [LF]), Sends(s, MESSAGE, value), c)
    ensures Sent(Sends(s, MESSAGE, value), s, Standard(DataLine(value) + [LF] + ([] + [LF]), c).events) <==>
              IdText(s.lastId) == []
  {
    LeadsDataEvent(s, value, c);
    StandardDataEvent(value, c);
    SentOne(s, value);
  }

  function IdLine(value: Text): Text {
    ID + [COLON] + value
  }

  lemma IdEffects(s: Stream, t: Interpreter, value: Text, maxDelay: nat)
    requires NUL !in value && (value == [] || value[0] != SPACE)
    ensures Effect(s, IdLine(value), maxDelay) == s.(pending := s.pending.(id := Some(value)))
    ensures ProcessLine(t, IdLine(value)) == t.(id := value)
  {
    IndexOfPlain(ID, COLON, value);
    assert FieldOf(IdLine(value)) == ID && IdLine(value)[|ID| + 1..] == value;
  }

  /** The id of an unfinished event is kept, where the Standard drops it. */
  lemma UnfinishedIdIsKept(s: Stream, value: Text, c: Config)
    requires s.pending == NO_PENDING && NUL !in value && OneLine(value) && (value == [] || value[0] != SPACE)
    requires Plain(IdLine(value), c)
    ensures Finish(Feed(Parser([], s), IdLine(value) + [LF], c), c).lastId == Some(value)
    ensures Standard(IdLine(value) + [LF], c).lastId == []
  {
    LeadsPlain(s, IdLine(value), c);
    IdEffects(s, START, value, c.maxDelay);
    SplitOne(IdLine(value));
    InterpretFirst(START, IdLine(value), [], c);
    assert [IdLine(value)] + [] == [IdLine(value)];
  }
}
