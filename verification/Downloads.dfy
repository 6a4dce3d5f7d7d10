/** Resumable downloads into a `.part` file that is renamed when complete. */
module Downloads {
  import opened Basics
  import opened Bytes
  import opened Coalescing
  import opened ContentRanges

  const MAX_DOWNLOAD_REDIRECTS: nat := 10

  const OK: nat := 200
  const PARTIAL_CONTENT: nat := 206
  const RANGE_NOT_SATISFIABLE: nat := 416

  predicate IsRedirect(status: nat) {
    status in {301, 302, 303, 307, 308}
  }

  predicate IsSuccess(status: nat) {
    200 <= status < 300
  }

  datatype Body = Empty | Small(bytes: Text) | Stream(chunks: seq<Chunk>)

  /** `range` is what the Content-Range header says, if there is a valid one. */
  datatype Response = Response(status: nat, range: HeaderRange, body: Body)

  /** What comes of one request: it cannot be made, sending it fails, or it is
      answered; a redirect may name a place that cannot be followed. */
  datatype Hop = NotSent | SendFails | Answer(response: Response, followable: bool)

  /** Which file operations fail. A failing write of chunk `i` leaves the first
      `write(i).value` bytes of it in the file. `sink(i)` says whether the sink
      refuses chunk `i`. */
  datatype Trouble = Trouble(dir: bool, meta: bool, open: bool, reopen: bool, flush: bool, rename: bool, remove: bool,
                             write: nat -> Option<nat>, sink: nat -> bool)

  datatype SinkCall = Write(bytes: Text) | Close(ok: bool)

  /** The response at the end of at most `limit` redirects. */
  function Followed(hops: seq<Hop>, limit: nat): Option<Response> {
    if hops == [] || !hops[0].Answer? then None
    else if !IsRedirect(hops[0].response.status) then Some(hops[0].response)
    else if limit == 0 || !hops[0].followable then None
    else Followed(hops[1..], limit - 1)
  }

  /** The requests it takes to get there. */
  function RequestsMade(hops: seq<Hop>, limit: nat): nat {
    if hops == [] || hops[0].NotSent? then 0
    else if hops[0].SendFails? || !IsRedirect(hops[0].response.status) || limit == 0 || !hops[0].followable then 1
    else 1 + RequestsMade(hops[1..], limit - 1)
  }

  lemma {:induction false} RequestsBounded(hops: seq<Hop>, limit: nat)
    ensures RequestsMade(hops, limit) <= limit + 1
  {
    if hops != [] && hops[0].Answer? && limit > 0 {
      RequestsBounded(hops[1..], limit - 1);
    }
  }

  lemma {:induction false} FollowedIn(hops: seq<Hop>, limit: nat)
    ensures Followed(hops, limit).Some? ==> !IsRedirect(Followed(hops, limit).value.status)
    ensures Followed(hops, limit).Some? ==>
              exists i :: 0 <= i < |hops| && hops[i].Answer? && hops[i].response == Followed(hops, limit).value
  {
    if hops != [] && hops[0].Answer? && IsRedirect(hops[0].response.status) && limit > 0 && hops[0].followable {
      FollowedIn(hops[1..], limit - 1);
      if Followed(hops, limit).Some? {
        var i :| 0 <= i < |hops[1..]| && hops[1..][i].Answer? && hops[1..][i].response == Followed(hops, limit).value;
        assert hops[i + 1] == hops[1..][i];
      }
    }
  }

  // ---------- the sink

  /** Whether there still is a sink, and the calls made to it. */
  datatype Sink = Sink(present: bool, calls: seq<SinkCall>)

  predicate OnlyWrites(calls: seq<SinkCall>) {
    forall i :: 0 <= i < |calls| ==> calls[i].Write?
  }

  /** Closed once, at the very end. */
  predicate ClosedOnce(calls: seq<SinkCall>) {
    calls != [] && calls[|calls| - 1].Close? && OnlyWrites(calls[..|calls| - 1])
  }

  function Mirrored(calls: seq<SinkCall>): Text {
    if calls == [] then []
    else Mirrored(calls[..|calls| - 1]) + if calls[|calls| - 1].Write? then calls[|calls| - 1].bytes else []
  }

  /** A sink that refuses a chunk is closed and gone. */
  function ForwardTo(s: Sink, bytes: Text, refused: bool): Sink {
    if !s.present then s
    else Sink(!refused, s.calls + [Write(bytes)] + if refused then [Close(false)] else [])
  }

  function Finalized(s: Sink, ok: bool): Sink {
    if s.present then Sink(false, s.calls + [Close(ok)]) else s
  }

  /** The sink after the first `n` chunks. */
  function Forwarded(s: Sink, chunks: seq<Chunk>, n: nat, t: Trouble): Sink
    requires n <= |chunks|
  {
    if n == 0 then s
    else
      var before := Forwarded(s, chunks, n - 1, t);
      if chunks[n - 1].Failure? then before else ForwardTo(before, chunks[n - 1].bytes, t.sink(n - 1))
  }

  ghost predicate NeverRefuses(t: Trouble) {
    forall i :: !t.sink(i)
  }

  lemma MirroredPush(calls: seq<SinkCall>, call: SinkCall)
    ensures Mirrored(calls + [call]) == Mirrored(calls) + if call.Write? then call.bytes else []
  {
    assert (calls + [call])[..|calls|] == calls;
  }

  lemma ClosedPush(calls: seq<SinkCall>, ok: bool)
    requires OnlyWrites(calls)
    ensures ClosedOnce(calls + [Close(ok)])
  {
    assert (calls + [Close(ok)])[..|calls|] == calls;
  }

  /** Only written to while it is there, and closed once, with the refusal, when it
      is not. */
  predicate InUse(s: Sink) {
    if s.present then OnlyWrites(s.calls) else ClosedOnce(s.calls) && s.calls[|s.calls| - 1] == Close(false)
  }

  lemma ForwardInUse(s: Sink, bytes: Text, refused: bool)
    requires InUse(s)
    ensures InUse(ForwardTo(s, bytes, refused))
  {
    if s.present && refused {
      ClosedPush(s.calls + [Write(bytes)], false);
    }
  }

  lemma {:induction false} ForwardedInUse(s: Sink, chunks: seq<Chunk>, n: nat, t: Trouble)
    requires n <= |chunks|
    ensures InUse(s) ==> InUse(Forwarded(s, chunks, n, t))
    ensures !s.present ==> Forwarded(s, chunks, n, t) == s
  {
    if n > 0 {
      ForwardedInUse(s, chunks, n - 1, t);
      if InUse(s) && chunks[n - 1].Chunk? {
        ForwardInUse(Forwarded(s, chunks, n - 1, t), chunks[n - 1].bytes, t.sink(n - 1));
      }
    }
  }

  /** Wherever a download ends, its sink is closed exactly once, at the end: with the
      result, or with a failure if it refused a chunk. */
  lemma SinkClosedOnce(s: Sink, chunks: seq<Chunk>, n: nat, t: Trouble, ok: bool)
    requires n <= |chunks| && InUse(s)
    ensures var s' := Forwarded(s, chunks, n, t); var calls := Finalized(s', ok).calls;
            ClosedOnce(calls) && calls[|calls| - 1] == Close(s'.present && ok)
  {
    ForwardedInUse(s, chunks, n, t);
    var s' := Forwarded(s, chunks, n, t);
    if s'.present {
      ClosedPush(s'.calls, ok);
    }
  }

  lemma ForwardWrites(s: Sink, bytes: Text, refused: bool)
    ensures Mirrored(ForwardTo(s, bytes, refused).calls)
         == if s.present then Mirrored(s.calls) + bytes else Mirrored(s.calls)
  {
    var written := s.calls + [Write(bytes)];
    MirroredPush(s.calls, Write(bytes));
    MirroredPush(written, Close(false));
    assert written + [] == written && Mirrored(written) + [] == Mirrored(written);
  }

  lemma ForwardMirrors(s: Sink, bytes: Text, refused: bool)
    requires s.present && !refused
    ensures ForwardTo(s, bytes, refused).present
    ensures Mirrored(ForwardTo(s, bytes, refused).calls) == Mirrored(s.calls) + bytes
  {
    MirroredPush(s.calls, Write(bytes));
    assert s.calls + [Write(bytes)] + [] == s.calls + [Write(bytes)];
  }

  /** The bytes of the first `n` chunks. */
  function FirstBytes(chunks: seq<Chunk>, n: nat): Text
    requires n <= |chunks| && Unbroken(chunks)
  {
    if n == 0 then [] else FirstBytes(chunks, n - 1) + chunks[n - 1].bytes
  }

  lemma {:induction false} FirstReceived(chunks: seq<Chunk>, n: nat)
    requires n <= |chunks| && Unbroken(chunks)
    ensures FirstBytes(chunks, n) == Received(chunks[..n])
  {
    if n > 0 {
      FirstReceived(chunks, n - 1);
      assert chunks[..n] == chunks[..n - 1] + [chunks[n - 1]];
      ReceivedPush(chunks[..n - 1], chunks[n - 1]);
    }
  }

  /** A sink that refuses nothing gets every byte. */
  lemma {:induction false} SinkGetsAll(s: Sink, chunks: seq<Chunk>, n: nat, t: Trouble)
    requires n <= |chunks| && NeverRefuses(t) && Unbroken(chunks) && s.present
    ensures Forwarded(s, chunks, n, t).present
    ensures Mirrored(Forwarded(s, chunks, n, t).calls) == Mirrored(s.calls) + FirstBytes(chunks, n)
    ensures FirstBytes(chunks, n) == Received(chunks[..n])
  {
    FirstReceived(chunks, n);
    if n > 0 {
      var before, bytes := Forwarded(s, chunks, n - 1, t), chunks[n - 1].bytes;
      SinkGetsAll(s, chunks, n - 1, t);
      ForwardMirrors(before, bytes, t.sink(n - 1));
      Associative(Mirrored(s.calls), FirstBytes(chunks, n - 1), bytes);
    }
  }

  /** It is written a prefix of the body, whatever it refuses. */
  lemma {:induction false} SinkGetsPrefix(s: Sink, chunks: seq<Chunk>, n: nat, t: Trouble)
    requires n <= |chunks| && Unbroken(chunks[..n]) && s.calls == []
    ensures Mirrored(Forwarded(s, chunks, n, t).calls) <= Received(chunks[..n])
    ensures s.present && Forwarded(s, chunks, n, t).present ==>
              Mirrored(Forwarded(s, chunks, n, t).calls) == Received(chunks[..n])
  {
    if n > 0 {
      var before, bytes := Forwarded(s, chunks, n - 1, t), chunks[..n][n - 1].bytes;
      assert chunks[..n] == chunks[..n - 1] + [Chunk(bytes)];
      assert forall i :: 0 <= i < n - 1 ==> chunks[..n - 1][i] == chunks[..n][i];
      SinkGetsPrefix(s, chunks, n - 1, t);
      ForwardedInUse(s, chunks, n - 1, t);
      ReceivedPush(chunks[..n - 1], Chunk(bytes));
      ForwardWrites(before, bytes, t.sink(n - 1));
    }
  }

  lemma {:induction false} ReceivedPrefix(chunks: seq<Chunk>, n: nat)
    requires n <= |chunks|
    ensures Received(chunks[..n]) <= Received(chunks)
  {
    if n > 0 && chunks[0].Chunk? {
      assert chunks[..n][1..] == chunks[1..][..n - 1];
      ReceivedPrefix(chunks[1..], n - 1);
    }
  }

  /** The sink after a download that forwarded `n` chunks and ended so. */
  ghost predicate SinkDone(s: Sink, chunks: seq<Chunk>, n: nat, t: Trouble, ok: bool, calls: seq<SinkCall>)
    requires n <= |chunks|
  {
    if !s.present then calls == []
    else
      && ClosedOnce(calls) && (calls[|calls| - 1] == Close(ok) || calls[|calls| - 1] == Close(false))
      && Mirrored(calls) <= Received(chunks)
      && (NeverRefuses(t) ==> calls[|calls| - 1] == Close(ok))
      && (NeverRefuses(t) && Unbroken(chunks) && n == |chunks| ==> Mirrored(calls) == Received(chunks))
  }

  lemma {:induction false} StaysPresent(s: Sink, chunks: seq<Chunk>, n: nat, t: Trouble)
    requires n <= |chunks| && NeverRefuses(t) && s.present
    ensures Forwarded(s, chunks, n, t).present
  {
    if n > 0 {
      StaysPresent(s, chunks, n - 1, t);
    }
  }

  lemma SinkAtEnd(s: Sink, chunks: seq<Chunk>, n: nat, t: Trouble, ok: bool)
    requires s.calls == [] && n <= |chunks| && Unbroken(chunks[..n])
    ensures var s' := Finalized(Forwarded(s, chunks, n, t), ok);
            !s'.present && SinkDone(s, chunks, n, t, ok, s'.calls)
  {
    ForwardedInUse(s, chunks, n, t);
    if s.present {
      SinkClosedOnce(s, chunks, n, t, ok);
      SinkGetsPrefix(s, chunks, n, t);
      ReceivedPrefix(chunks, n);
      MirroredPush(Forwarded(s, chunks, n, t).calls, Close(ok));
      if NeverRefuses(t) {
        StaysPresent(s, chunks, n, t);
      }
      assert n == |chunks| ==> chunks[..n] == chunks;
    }
  }

  // ---------- honest servers

  function Chunks(body: Body): seq<Chunk> {
    match body
    case Empty => []
    case Small(bytes) => [Chunk(bytes)]
    case Stream(chunks) => chunks
  }

  /** The body carries `whole`, or is cut by a failure somewhere in it. */
  predicate Carries(body: Body, whole: Text) {
    Received(Chunks(body)) <= whole && (Unbroken(Chunks(body)) ==> Received(Chunks(body)) == whole)
  }

  /** What the server says about the resource is true. Only 200, 206 and 416 say
      anything about it. */
  predicate Honest(r: Response, resource: Text) {
    var range := r.range;
    if r.status == PARTIAL_CONTENT then
      range.Some? && range.value.Range? ==>
        && range.value.end < |resource| && (range.value.length.Some? ==> range.value.length.value == |resource|)
        && Carries(r.body, resource[range.value.start..range.value.end + 1])
    else if r.status == RANGE_NOT_SATISFIABLE then
      range.Some? && range.value.Unsatisfied? && range.value.length.Some? ==> range.value.length.value == |resource|
    else r.status == OK ==> Carries(r.body, resource)
  }

  /** A success that says nothing about the resource. */
  predicate Unspoken(r: Response) {
    IsSuccess(r.status) && r.status != OK && r.status != PARTIAL_CONTENT
  }

  predicate HonestHops(hops: seq<Hop>, resource: Text) {
    forall i :: 0 <= i < |hops| && hops[i].Answer? ==> Honest(hops[i].response, resource)
  }

  predicate PrefixOf(part: Option<Text>, resource: Text) {
    part.Some? ==> part.value <= resource
  }

  // ---------- what a response does

  /** The response says that the `offset` bytes there are all there is. */
  predicate Finished(r: Response, offset: nat) {
    r.status == RANGE_NOT_SATISFIABLE && r.range == Some(Unsatisfied(Some(offset)))
  }

  /** The response says that the bytes there are not a part of the resource. */
  predicate Stale(r: Response, offset: nat) {
    offset > 0 && r.status == RANGE_NOT_SATISFIABLE && !Finished(r, offset)
  }

  /** The response is the rest of the resource, `expected` bytes from `offset` on. */
  predicate Resumes(r: Response, offset: nat, expected: nat) {
    && r.status == PARTIAL_CONTENT && expected > 0
    && r.range == Some(Range(offset, offset + expected - 1, Some(offset + expected)))
  }

  /** The chunks the response adds to the file, and what a successful download
      with this response leaves as the destination, given the file before it. */
  function Added(r: Response): seq<Chunk> {
    if r.status == RANGE_NOT_SATISFIABLE then [] else Chunks(r.body)
  }

  function Outcome(part: Text, r: Response): Text {
    (if r.status in {PARTIAL_CONTENT, RANGE_NOT_SATISFIABLE} then part else []) + Received(Added(r))
  }

  /** The body is to be taken in: as the rest of the resource, or as all of it. */
  predicate Acceptable(r: Response, offset: nat) {
    if offset == 0 then IsSuccess(r.status) && r.status != PARTIAL_CONTENT
    else
      || r.status == OK
      || (r.status == PARTIAL_CONTENT && r.range.Some? && r.range.value.Range?
          && r.range.value.start == offset && r.range.value.length == Some(r.range.value.end + 1))
  }

  /** How long the body of an accepted partial response must be. */
  function ExpectedOf(r: Response): Option<nat> {
    if r.status == PARTIAL_CONTENT && r.range.Some? && r.range.value.Range?
    then Some(r.range.value.end - r.range.value.start + 1) else None
  }

  /** The most bytes that are taken in. */
  function Limit(expected: Option<nat>): nat {
    if expected.Some? then Min(expected.value, MAX_U64) else MAX_U64
  }

  /** The first `n` chunks can be written. */
  ghost predicate Writable(n: nat, t: Trouble) {
    forall i :: 0 <= i < n ==> t.write(i).None?
  }

  /** No write fails, and there is not too much to write. */
  ghost predicate GoesWell(chunks: seq<Chunk>, expected: Option<nat>, t: Trouble) {
    Writable(|chunks|, t) && |Received(chunks)| <= Limit(expected)
  }

  /** No file operation fails. */
  ghost predicate Smooth(t: Trouble) {
    !t.dir && !t.meta && !t.open && !t.reopen && !t.flush && !t.rename && forall i :: t.write(i).None?
  }

  /** The body is not cut and as long as it should be. */
  predicate Whole(chunks: seq<Chunk>, expected: Option<nat>) {
    && Unbroken(chunks) && |Received(chunks)| <= MAX_U64
    && (expected.Some? ==> |Received(chunks)| == expected.value)
  }

  /** The file grew from `base` by a prefix of `whole` no longer than expected. */
  predicate Grew(base: Text, value: Text, whole: Text, expected: Option<nat>) {
    base <= value <= base + whole && (expected.Some? ==> |value| <= |base| + expected.value)
  }

  /** The first `i` chunks came through, and these are their bytes. */
  ghost predicate GotSoFar(chunks: seq<Chunk>, i: nat, got: Text) {
    i <= |chunks| && Unbroken(chunks[..i]) && got == Received(chunks[..i])
  }

  lemma StillGrew(base: Text, got: Text, bytes: Text, whole: Text, v: Text, expected: Option<nat>)
    requires base + got <= v <= base + got + bytes && got + bytes <= whole
    requires expected.Some? ==> |got| + |v| - |base + got| <= expected.value
    ensures Grew(base, v, whole, expected)
    ensures v == base + got + bytes ==> v == base + (got + bytes)
  {
    assert base + got + bytes == base + (got + bytes);
    assert base + (got + bytes) <= base + whole;
  }

  /** Receiving one chunk more. */
  lemma {:induction false} ReceivedStep(chunks: seq<Chunk>, i: nat, got: Text)
    requires i < |chunks| && GotSoFar(chunks, i, got)
    ensures got <= Received(chunks)
    ensures chunks[i].Chunk? ==>
              GotSoFar(chunks, i + 1, got + chunks[i].bytes) && got + chunks[i].bytes <= Received(chunks)
  {
    ReceivedPrefix(chunks, i);
    ReceivedPrefix(chunks, i + 1);
    assert chunks[..i + 1] == chunks[..i] + [chunks[i]];
    ReceivedPush(chunks[..i], chunks[i]);
  }

  /** Nothing is received after a failure. */
  lemma {:induction false} ReceivedCut(chunks: seq<Chunk>, i: nat, got: Text)
    requires i < |chunks| && GotSoFar(chunks, i, got) && chunks[i].Failure?
    ensures Received(chunks) == got
  {
    if i > 0 {
      assert chunks[..i][0] == chunks[0] && chunks[..i][1..] == chunks[1..][..i - 1];
      ReceivedCut(chunks[1..], i - 1, got[|chunks[0].bytes|..]);
    }
  }

  /** A body of which the first `i` chunks were looked at: how the file grew from
      `base`, and what is known of all of it. */
  ghost predicate BodySoFar(base: Text, value: Text, chunks: seq<Chunk>, expected: Option<nat>, t: Trouble, i: nat,
                            got: Text, received: nat, n: nat, ok: bool)
    requires i <= |chunks| && n <= |chunks|
  {
    && Grew(base, value, Received(chunks), expected) && Unbroken(chunks[..n])
    && (if ok then
          && GotSoFar(chunks, i, got) && received == |got| && value == base + got && n == i
          && received <= Limit(expected) && Writable(i, t)
        else GoesWell(chunks, expected, t) ==> !Unbroken(chunks) && value == base + Received(chunks))
  }

  lemma BodyCut(base: Text, value: Text, chunks: seq<Chunk>, expected: Option<nat>, t: Trouble, i: nat, got: Text,
                received: nat, n: nat)
    requires i < |chunks| && n <= |chunks| && chunks[i].Failure?
    requires BodySoFar(base, value, chunks, expected, t, i, got, received, n, true)
    ensures BodySoFar(base, value, chunks, expected, t, i, got, received, n, false)
  {
    ReceivedCut(chunks, i, got);
  }

  lemma BodyTook(base: Text, value: Text, chunks: seq<Chunk>, expected: Option<nat>, t: Trouble, i: nat, got: Text,
                 received: nat, n: nat, bytes: Text, n': nat, ok: bool)
    requires i < |chunks| && n <= n' <= n + 1 <= |chunks| && chunks[i] == Chunk(bytes) && (ok ==> n' == n + 1)
    requires BodySoFar(base, base + got, chunks, expected, t, i, got, received, n, true)
    requires base + got <= value <= base + got + bytes && (ok ==> value == base + got + bytes)
    requires expected.Some? ==> received + |value| - |base + got| <= expected.value
    requires ok <==> t.write(i).None? && received + |bytes| <= Limit(expected)
    ensures BodySoFar(base, value, chunks, expected, t, i + 1, got + bytes, received + |bytes|, n', ok)
  {
    ReceivedStep(chunks, i, got);
    StillGrew(base, got, bytes, Received(chunks), value, expected);
    assert chunks[..n + 1] == chunks[..n] + [chunks[n]];
  }

  /** The responses that complete a download from `offset` on when no file
      operation fails. */
  predicate Completes(r: Response, offset: nat) {
    || (offset > 0 && Finished(r, offset))
    || (Acceptable(r, offset) && Whole(Chunks(r.body), ExpectedOf(r)))
  }

  // ---------- what an attempt does

  datatype Files = Files(part: Option<Text>, dest: Option<Text>)

  /** One attempt, as the server and the file system let it go. */
  datatype Try = Try(hops: seq<Hop>, resume: bool, trouble: Trouble, sink: bool)

  /** What comes of it: the response it acted on, the complete length that one
      advertised if it was a partial response that was taken in, the requests
      sent, the calls of the sink and the files. */
  datatype Result = Result(ok: bool, last: Option<Response>, length: Option<nat>, requests: nat, calls: seq<SinkCall>,
                           files: Files)

  predicate Opens(t: Trouble) {
    !t.dir && !t.open
  }

  /** The bytes to resume from: those of the part file if its length can be read. */
  function Resumed(part: Option<Text>, t: Try): Text {
    if t.resume && !t.trouble.meta && part.Some? then part.value else []
  }

  /** The body is taken in. */
  predicate Taken(r: Response, offset: nat, t: Trouble) {
    Acceptable(r, offset) && !(offset > 0 && r.status == OK && t.reopen)
  }

  function LengthOf(r: Response, offset: nat, t: Trouble): Option<nat> {
    if Taken(r, offset, t) && ExpectedOf(r).Some? then Some(offset + ExpectedOf(r).value) else None
  }

  /** What the body is added to. */
  function Base(r: Response, found: Text): Text {
    if r.status == PARTIAL_CONTENT then found else []
  }

  /** The part file after a response that did not complete the download: grown by
      a prefix of the body, by all that came of it if no write failed and it was
      not too long; or untouched; or removed if it was stale. */
  ghost predicate PartRight(found: Text, r: Response, t: Trouble, part: Option<Text>) {
    if Taken(r, |found|, t) then
      && part.Some? && Grew(Base(r, found), part.value, Received(Chunks(r.body)), ExpectedOf(r))
      && (GoesWell(Chunks(r.body), ExpectedOf(r), t) ==> part.value == Base(r, found) + Received(Chunks(r.body)))
    else part == if Stale(r, |found|) && !t.remove then None else Some(found)
  }

  /** The response was one that can complete the download. */
  predicate Justified(r: Response, offset: nat, t: Trouble) {
    || (offset > 0 && Finished(r, offset))
    || (Taken(r, offset, t) && Whole(Chunks(r.body), ExpectedOf(r)))
  }

  /** And nothing got in the way of it. */
  ghost predicate Succeeds(r: Response, offset: nat, t: Trouble) {
    && !t.rename
    && ((offset > 0 && Finished(r, offset))
        || (Taken(r, offset, t) && Whole(Chunks(r.body), ExpectedOf(r)) && Writable(|Chunks(r.body)|, t) && !t.flush))
  }

  ghost predicate FilesRight(before: Files, t: Try, r: Result) {
    var found := Resumed(before.part, t);
    if r.ok then
      && r.last.Some? && Justified(r.last.value, |found|, t.trouble) && Unbroken(Added(r.last.value))
      && r.files == Files(None, Some(Outcome(found, r.last.value)))
    else
      && r.files.dest == before.dest
      && if !Opens(t.trouble) then r.files.part == before.part
         else if r.last.None? then r.files.part == Some(found)
         else PartRight(found, r.last.value, t.trouble, r.files.part)
  }

  /** Closed once, with the result or with its own refusal, and written only before:
      a prefix of the body, and all of it on success if it refuses nothing. */
  ghost predicate SinkRight(t: Try, r: Result) {
    if !t.sink then r.calls == []
    else
      && ClosedOnce(r.calls) && (r.calls[|r.calls| - 1] == Close(r.ok) || r.calls[|r.calls| - 1] == Close(false))
      && Mirrored(r.calls) <= (if r.last.Some? then Received(Added(r.last.value)) else [])
      && (NeverRefuses(t.trouble) ==> r.calls[|r.calls| - 1] == Close(r.ok))
      && (r.ok && NeverRefuses(t.trouble) && r.last.Some? ==> Mirrored(r.calls) == Received(Added(r.last.value)))
  }

  /** All that is promised of an attempt. */
  ghost predicate AttemptRight(before: Files, t: Try, r: Result) {
    var offset := |Resumed(before.part, t)|;
    && r.last == (if Opens(t.trouble) then Followed(t.hops, MAX_DOWNLOAD_REDIRECTS) else None)
    && r.requests == (if Opens(t.trouble) then RequestsMade(t.hops, MAX_DOWNLOAD_REDIRECTS) else 0)
    && r.length == (if r.last.Some? then LengthOf(r.last.value, offset, t.trouble) else None)
    && FilesRight(before, t, r) && SinkRight(t, r)
    && (r.ok <==> r.last.Some? && Succeeds(r.last.value, offset, t.trouble))
  }

  /** If no file operation fails, the response alone decides. */
  lemma SmoothSucceeds(r: Response, offset: nat, t: Trouble)
    requires Smooth(t)
    ensures Succeeds(r, offset, t) <==> Completes(r, offset)
  {}

  /** A partial success leaves exactly the advertised length, and otherwise the
      part file is never longer; at most eleven requests are sent. */
  lemma AttemptBounded(before: Files, t: Try, r: Result)
    requires AttemptRight(before, t, r)
    ensures r.requests <= MAX_DOWNLOAD_REDIRECTS + 1
    ensures r.ok && r.last.value.status == PARTIAL_CONTENT ==> r.length.Some?
    ensures r.length.Some? ==>
              && r.last.value.range.Some? && r.last.value.range.value.length == r.length
              && if r.ok then |r.files.dest.value| == r.length.value
                 else r.files.part.Some? && |r.files.part.value| <= r.length.value
  {
    RequestsBounded(t.hops, MAX_DOWNLOAD_REDIRECTS);
  }

  /** An honest answer that is not cut completes a download. */
  lemma HonestCompletes(r: Response, offset: nat, base: Text, resource: Text)
    requires Honest(r, resource) && base <= resource && |base| == offset && |resource| <= MAX_U64
    requires Acceptable(r, offset) && Unbroken(Chunks(r.body)) && !Unspoken(r)
    ensures Completes(r, offset)
  {}

  /** An honest server calls a prefix complete only if it is the resource. */
  lemma HonestEnd(r: Response, offset: nat, base: Text, resource: Text)
    requires |base| == offset
    ensures Honest(r, resource) && base <= resource && Finished(r, offset) ==> base == resource
  {}

  lemma HonestCarries(r: Response, offset: nat, base: Text, expected: Option<nat>, resource: Text)
    requires if expected.Some? then |base| == offset && Resumes(r, offset, expected.value)
             else base == [] && r.status == OK
    requires Honest(r, resource) && base <= resource
    ensures Carries(r.body, resource[|base|..])
  {
    if expected.Some? {
      assert resource[offset..offset + expected.value] == resource[|base|..];
    } else {
      assert resource[0..] == resource;
    }
  }

  lemma AddToPrefix(base: Text, got: Text, resource: Text)
    requires base <= resource && got <= resource[|base|..]
    ensures base + got <= resource && (got == resource[|base|..] ==> base + got == resource)
  {
    assert resource == base + resource[|base|..];
  }

  /** Bytes an honest server adds to a prefix of the resource give a prefix, and
      all of it when the body is not cut. */
  lemma HonestBody(r: Response, offset: nat, base: Text, expected: Option<nat>, resource: Text)
    requires if expected.Some? then |base| == offset && Resumes(r, offset, expected.value)
             else base == [] && r.status == OK
    ensures Honest(r, resource) && base <= resource ==>
              && base + Received(Chunks(r.body)) <= resource
              && (Unbroken(Chunks(r.body)) ==> base + Received(Chunks(r.body)) == resource)
  {
    if Honest(r, resource) && base <= resource {
      HonestCarries(r, offset, base, expected, resource);
      AddToPrefix(base, Received(Chunks(r.body)), resource);
    }
  }

  /** What an honest server leaves of a prefix of the resource, when the download
      does not succeed and when it does. */
  lemma HonestPart(found: Text, r: Response, t: Trouble, part: Option<Text>, resource: Text)
    requires Honest(r, resource) && !Unspoken(r) && found <= resource && PartRight(found, r, t, part)
    ensures PrefixOf(part, resource)
  {
    if Taken(r, |found|, t) {
      HonestBody(r, |found|, Base(r, found), ExpectedOf(r), resource);
    }
  }

  lemma HonestOutcome(found: Text, r: Response, t: Trouble, resource: Text)
    requires Honest(r, resource) && !Unspoken(r) && found <= resource
    requires Justified(r, |found|, t) && Unbroken(Added(r))
    ensures Outcome(found, r) == resource
  {
    if Finished(r, |found|) {
      HonestEnd(r, |found|, found, resource);
      assert found + [] == found;
    } else {
      HonestBody(r, |found|, Base(r, found), ExpectedOf(r), resource);
    }
  }

  /** Unless it ends in a success that says nothing about the resource, an attempt
      at honest servers keeps the part file a prefix of the resource, and if it
      succeeds it leaves the resource. */
  lemma AttemptHonest(before: Files, t: Try, r: Result, resource: Text)
    requires AttemptRight(before, t, r) && HonestHops(t.hops, resource) && PrefixOf(before.part, resource)
    requires r.last.Some? ==> !Unspoken(r.last.value)
    ensures PrefixOf(r.files.part, resource) && (r.ok ==> r.files.dest == Some(resource))
  {
    var found := Resumed(before.part, t);
    if r.last.Some? {
      FollowedIn(t.hops, MAX_DOWNLOAD_REDIRECTS);
      if r.ok {
        HonestOutcome(found, r.last.value, t.trouble, resource);
      } else {
        HonestPart(found, r.last.value, t.trouble, r.files.part, resource);
      }
    }
  }

  /** An attempt that meets an honest answer, not cut and not out of place, while
      no file operation fails, succeeds. */
  lemma AttemptSucceeds(before: Files, t: Try, r: Result, resource: Text)
    requires AttemptRight(before, t, r) && HonestHops(t.hops, resource) && PrefixOf(before.part, resource)
    requires Smooth(t.trouble) && |resource| <= MAX_U64 && r.last.Some? && !Unspoken(r.last.value)
    requires Acceptable(r.last.value, |Resumed(before.part, t)|) && Unbroken(Chunks(r.last.value.body))
    ensures r.ok && r.files == Files(None, Some(resource))
  {
    var found := Resumed(before.part, t);
    FollowedIn(t.hops, MAX_DOWNLOAD_REDIRECTS);
    HonestCompletes(r.last.value, |found|, found, resource);
    SmoothSucceeds(r.last.value, |found|, t.trouble);
    AttemptHonest(before, t, r, resource);
  }

  // ---------- the download

  datatype Verdict = Fail | Complete | Receive(expected: Option<nat>)

  class Downloader {
    var part: Option<Text>
    var dest: Option<Text>
    var sink: Sink
    var requests: nat

    constructor (part: Option<Text>, dest: Option<Text>, sink: bool)
      ensures this.part == part && this.dest == dest && this.sink == Sink(sink, []) && requests == 0
    {
      this.part, this.dest, this.sink, requests := part, dest, Sink(sink, []), 0;
    }

    method FinalizeSink(ok: bool)
      modifies this`sink
      ensures sink == Finalized(old(sink), ok)
    {
      if sink.present {
        sink := Sink(false, sink.calls + [Close(ok)]);
      }
    }

    /** Sends the request and follows redirects. */
    method Fetch(hops: seq<Hop>) returns (response: Option<Response>)
      modifies this`requests
      ensures response == Followed(hops, MAX_DOWNLOAD_REDIRECTS)
      ensures requests == old(requests) + RequestsMade(hops, MAX_DOWNLOAD_REDIRECTS)
    {
      var redirects, i := 0, 0;
      while i < |hops|
        invariant 0 <= i <= |hops| && redirects <= MAX_DOWNLOAD_REDIRECTS
        invariant Followed(hops[i..], MAX_DOWNLOAD_REDIRECTS - redirects) == Followed(hops, MAX_DOWNLOAD_REDIRECTS)
        invariant requests + RequestsMade(hops[i..], MAX_DOWNLOAD_REDIRECTS - redirects)
               == old(requests) + RequestsMade(hops, MAX_DOWNLOAD_REDIRECTS)
      {
        var hop := hops[i];
        i := i + 1;
        if hop.NotSent? {
          return None;
        }
        requests := requests + 1;
        if hop.SendFails? {
          return None;
        }
        if !IsRedirect(hop.response.status) {
          return Some(hop.response);
        }
        if redirects >= MAX_DOWNLOAD_REDIRECTS || !hop.followable {
          return None;
        }
        redirects := redirects + 1;
      }
      return None;
    }

    method Rename(fails: bool) returns (ok: bool)
      modifies this`part, this`dest
      ensures ok == !fails
      ensures if ok then dest == old(part) && part == None else dest == old(dest) && part == old(part)
    {
      ok := !fails;
      if ok {
        dest, part := part, None;
      }
    }

    /** Decides on the range of a partial response: how many bytes to expect, if
        it is the rest of the resource. */
    method JudgeRange(r: Response, offset: nat) returns (expected: Option<nat>)
      requires r.status == PARTIAL_CONTENT && offset > 0
      ensures expected.Some? <==> Acceptable(r, offset)
      ensures expected.Some? ==> expected == ExpectedOf(r) && Resumes(r, offset, expected.value)
    {
      var range := r.range;
      if range.None? || !range.value.Range? || range.value.start != offset {
        return None;
      }
      if range.value.end + 1 > MAX_U64 || range.value.length != Some(range.value.end + 1) {
        return None;
      }
      return Some(range.value.end - range.value.start + 1);
    }

    /** Decides on an unsatisfiable range: the file is complete, or stale. */
    method JudgeUnsatisfied(r: Response, offset: nat, t: Trouble) returns (complete: bool)
      requires r.status == RANGE_NOT_SATISFIABLE && offset > 0
      modifies this`part, this`dest
      ensures complete <==> Finished(r, offset) && !t.rename
      ensures if complete then dest == old(part) && part == None else dest == old(dest)
      ensures !complete ==> part == if Stale(r, offset) && !t.remove then None else old(part)
    {
      if r.range == Some(Unsatisfied(Some(offset))) {
        complete := Rename(t.rename);
        return;
      }
      if !t.remove {
        part := None;
      }
      return false;
    }

    /** Decides on a response to a request for the bytes from `offset` on. */
    method Judge(r: Response, offset: nat, t: Trouble) returns (v: Verdict)
      requires part.Some? && |part.value| == offset
      modifies this`part, this`dest
      ensures v.Complete? <==> offset > 0 && Finished(r, offset) && !t.rename
      ensures v.Receive? <==> Taken(r, offset, t)
      ensures v.Receive? ==> v.expected == ExpectedOf(r)
      ensures if v.Complete? then dest == old(part) && part == None else dest == old(dest)
      ensures v.Fail? ==> part == if Stale(r, offset) && !t.remove then None else old(part)
      ensures v.Receive? && v.expected.Some? ==>
                offset > 0 && part == old(part) && Resumes(r, offset, v.expected.value)
      ensures v.Receive? && v.expected.None? ==>
                r.status != PARTIAL_CONTENT && part == Some([])
    {
      if offset == 0 {
        return if IsSuccess(r.status) && r.status != PARTIAL_CONTENT then Receive(None) else Fail;
      }
      if r.status == OK {
        if t.reopen {
          return Fail;
        }
        part := Some([]);
        return Receive(None);
      }
      if r.status == PARTIAL_CONTENT {
        var expected := JudgeRange(r, offset);
        return if expected.Some? then Receive(expected) else Fail;
      }
      if r.status == RANGE_NOT_SATISFIABLE {
        var complete := JudgeUnsatisfied(r, offset, t);
        return if complete then Complete else Fail;
      }
      return Fail;
    }

    /** Mirrors a chunk into the sink, which is closed if it refuses. */
    method Forward(bytes: Text, refused: bool)
      modifies this`sink
      ensures sink == ForwardTo(old(sink), bytes, refused)
    {
      if sink.present {
        sink := sink.(calls := sink.calls + [Write(bytes)]);
        if refused {
          sink := Sink(false, sink.calls + [Close(false)]);
        }
      }
    }

    /** Appends to the file; a failing write leaves a part of the bytes. */
    method WriteAll(bytes: Text, fails: Option<nat>) returns (ok: bool)
      requires part.Some?
      modifies this`part
      ensures part.Some? && ok == fails.None?
      ensures ok ==> part.value == old(part.value) + bytes
      ensures old(part.value) <= part.value <= old(part.value) + bytes
    {
      ok := fails.None?;
      part := Some(part.value + if ok then bytes else bytes[..Min(fails.value, |bytes|)]);
    }

    /** Takes in one chunk after `received` bytes, unless it is too long. */
    method ReceiveChunk(bytes: Text, received: nat, expected: Option<nat>, refused: bool, fails: Option<nat>)
      returns (ok: bool)
      requires part.Some? && (expected.Some? ==> received <= expected.value)
      modifies this`part, this`sink
      ensures part.Some? && old(part.value) <= part.value <= old(part.value) + bytes
      ensures expected.Some? ==> received + |part.value| - |old(part.value)| <= expected.value
      ensures ok ==> part.value == old(part.value) + bytes
      ensures ok <==> fails.None? && received + |bytes| <= Limit(expected)
      ensures sink == ForwardTo(old(sink), bytes, refused) || (!ok && sink == old(sink))
    {
      if received + |bytes| > MAX_U64 || (expected.Some? && received + |bytes| > expected.value) {
        return false;
      }
      Forward(bytes, refused);
      ok := WriteAll(bytes, fails);
    }

    /** Takes the body in, chunk by chunk. The file grows by a prefix of what was
        received, by all of it on success, and never past the expected length;
        the first `n` chunks were mirrored. */
    method ReceiveBody(body: Body, expected: Option<nat>, t: Trouble) returns (ok: bool, received: nat, ghost n: nat)
      requires part.Some?
      modifies this`part, this`sink
      ensures part.Some? && Grew(old(part.value), part.value, Received(Chunks(body)), expected)
      ensures ok ==> Unbroken(Chunks(body)) && part.value == old(part.value) + Received(Chunks(body))
      ensures ok ==> received == |Received(Chunks(body))| && n == |Chunks(body)|
      ensures n <= |Chunks(body)| && sink == Forwarded(old(sink), Chunks(body), n, t) && Unbroken(Chunks(body)[..n])
      ensures GoesWell(Chunks(body), expected, t) ==> part.value == old(part.value) + Received(Chunks(body))
      ensures ok <==> GoesWell(Chunks(body), expected, t) && Unbroken(Chunks(body))
    {
      var chunks := Chunks(body);
      ghost var base, got := part.value, [];
      var i := 0;
      ok, received, n := true, 0, 0;
      while ok && i < |chunks|
        invariant i <= |chunks| && n <= |chunks| && part.Some? && sink == Forwarded(old(sink), chunks, n, t)
        invariant BodySoFar(base, part.value, chunks, expected, t, i, got, received, n, ok)
        decreases |chunks| - i, ok
      {
        if chunks[i].Failure? {
          BodyCut(base, part.value, chunks, expected, t, i, got, received, n);
          ok := false;
        } else {
          ghost var before, n' := sink, n + 1;
          var bytes := chunks[i].bytes;
          ok := ReceiveChunk(bytes, received, expected, t.sink(i), t.write(i));
          n' := if sink == before && !ok then n else n + 1;
          BodyTook(base, part.value, chunks, expected, t, i, got, received, n, bytes, n', ok);
          got, received, i, n := got + bytes, received + |bytes|, i + 1, n';
        }
      }
      assert chunks[..|chunks|] == chunks;
    }

    /** Finds out where to resume and opens the file. */
    method Open(t: Try) returns (ok: bool, offset: nat)
      requires !t.trouble.dir
      modifies this`part
      ensures ok == Opens(t.trouble) && offset == |Resumed(old(part), t)|
      ensures part == if ok then Some(Resumed(old(part), t)) else old(part)
    {
      offset := if t.resume && !t.trouble.meta && part.Some? then |part.value| else 0;
      ok := !t.trouble.open;
      if ok && offset == 0 {
        part := Some([]);
      }
    }

    /** Stores an accepted body and puts the file in its place. */
    method Store(body: Body, expected: Option<nat>, t: Trouble) returns (ok: bool, ghost n: nat)
      requires part.Some?
      modifies this`part, this`dest, this`sink
      ensures ok ==> part == None && dest == Some(old(part.value) + Received(Chunks(body)))
      ensures ok ==> Whole(Chunks(body), expected)
      ensures !ok ==> dest == old(dest) && part.Some?
      ensures !ok ==> Grew(old(part.value), part.value, Received(Chunks(body)), expected)
      ensures !ok && GoesWell(Chunks(body), expected, t) ==> part.value == old(part.value) + Received(Chunks(body))
      ensures n <= |Chunks(body)| && sink == Forwarded(old(sink), Chunks(body), n, t) && (ok ==> n == |Chunks(body)|)
      ensures Unbroken(Chunks(body)[..n])
      ensures ok <==> Whole(Chunks(body), expected) && Writable(|Chunks(body)|, t) && !t.flush && !t.rename
    {
      var received;
      ok, received, n := ReceiveBody(body, expected, t);
      if !ok || (expected.Some? && received != expected.value) || t.flush {
        ok := false;
        return;
      }
      ok := Rename(t.rename);
    }

    /** Acts on the final response. */
    method Respond(r: Response, offset: nat, t: Trouble) returns (ok: bool, length: Option<nat>, ghost n: nat)
      requires part.Some? && |part.value| == offset
      modifies this`part, this`dest, this`sink
      ensures ok ==> part == None && dest == Some(Outcome(old(part.value), r))
      ensures ok ==> Justified(r, offset, t) && Unbroken(Added(r))
      ensures !ok ==> dest == old(dest) && PartRight(old(part.value), r, t, part)
      ensures length == LengthOf(r, offset, t)
      ensures n <= |Added(r)| && sink == Forwarded(old(sink), Added(r), n, t) && (ok ==> n == |Added(r)|)
      ensures Unbroken(Added(r)[..n])
      ensures ok <==> Succeeds(r, offset, t)
    {
      assert part.value + [] == part.value;
      var v := Judge(r, offset, t);
      if !v.Receive? {
        return v.Complete?, None, 0;
      }
      ok, n := Store(r.body, v.expected, t);
      length := if v.expected.Some? then Some(offset + v.expected.value) else None;
    }

    ghost function View(): Files
      reads this
    {
      Files(part, dest)
    }

    /** One download. */
    method DownloadResource(t: Try) returns (r: Result)
      requires sink == Sink(t.sink, [])
      modifies this
      ensures AttemptRight(old(View()), t, r) && r.files == View() && r.calls == sink.calls
      ensures !sink.present && requests == old(requests) + r.requests
    {
      ghost var chunks, n: nat := [], 0;
      var ok, length, last, before := false, None, None, requests;
      if !t.trouble.dir {
        var isOpen, offset := Open(t);
        if isOpen {
          last := Fetch(t.hops);
          if last.Some? {
            ok, length, n := Respond(last.value, offset, t.trouble);
            chunks := Added(last.value);
          }
        }
      }
      SinkAtEnd(old(sink), chunks, n, t.trouble, ok);
      FinalizeSink(ok);
      r := Result(ok, last, length, requests - before, sink.calls, Files(part, dest));
    }
  }

  // ---------- many attempts

  function FilesAfter(before: Files, results: seq<Result>): Files {
    if results == [] then before else results[|results| - 1].files
  }

  ghost predicate TracedAt(before: Files, tries: seq<Try>, results: seq<Result>, i: nat)
    requires i < |tries| == |results|
  {
    AttemptRight(FilesAfter(before, results[..i]), tries[i], results[i])
  }

  /** Each attempt did what it should to the files the one before it left. */
  ghost predicate Traced(before: Files, tries: seq<Try>, results: seq<Result>) {
    |results| == |tries| && forall i :: 0 <= i < |tries| ==> TracedAt(before, tries, results, i)
  }

  predicate SomeOk(results: seq<Result>) {
    exists i :: 0 <= i < |results| && results[i].ok
  }

  /** The servers tell the truth about the resource. */
  predicate AllHonest(tries: seq<Try>, resource: Text) {
    forall i :: 0 <= i < |tries| ==> HonestHops(tries[i].hops, resource)
  }

  /** No attempt ends in a success that says nothing about the resource. */
  predicate AllSpeak(results: seq<Result>) {
    forall i :: 0 <= i < |results| && results[i].last.Some? ==> !Unspoken(results[i].last.value)
  }

  /** What one of them does to a prefix of the resource. */
  lemma StepHonest(before: Files, tries: seq<Try>, results: seq<Result>, resource: Text, i: nat)
    requires Traced(before, tries, results) && i < |tries| && AllHonest(tries, resource) && AllSpeak(results)
    requires PrefixOf(FilesAfter(before, results[..i]).part, resource)
    ensures PrefixOf(results[i].files.part, resource)
    ensures results[i].files.dest == if results[i].ok then Some(resource) else FilesAfter(before, results[..i]).dest
  {
    assert TracedAt(before, tries, results, i);
    AttemptHonest(FilesAfter(before, results[..i]), tries[i], results[i], resource);
  }

  /** After any sequence of attempts at honest servers, cut anywhere, the part file
      is a prefix of the resource, and the destination is the resource exactly if
      one of them succeeded, untouched otherwise. */
  lemma {:induction false} HonestTrace(before: Files, tries: seq<Try>, results: seq<Result>, resource: Text, n: nat)
    requires Traced(before, tries, results) && n <= |tries|
    requires AllHonest(tries, resource) && AllSpeak(results) && PrefixOf(before.part, resource)
    ensures var after := FilesAfter(before, results[..n]);
            PrefixOf(after.part, resource) && after.dest == if SomeOk(results[..n]) then Some(resource) else before.dest
  {
    if n > 0 {
      HonestTrace(before, tries, results, resource, n - 1);
      var r := results[n - 1];
      StepHonest(before, tries, results, resource, n - 1);
      SomeOkPush(results[..n - 1], r);
      assert results[..n] == results[..n - 1] + [r];
    }
  }

  lemma SomeOkPush(results: seq<Result>, r: Result)
    ensures SomeOk(results + [r]) <==> SomeOk(results) || r.ok
  {
    if SomeOk(results) {
      var i :| 0 <= i < |results| && results[i].ok;
      assert (results + [r])[i] == results[i];
    }
    if r.ok {
      assert (results + [r])[|results|] == r;
    }
  }

  /** Attempt `i` meets an honest answer, not cut and not out of place, and no
      file operation fails. */
  ghost predicate Undisturbed(before: Files, tries: seq<Try>, results: seq<Result>, i: nat)
    requires i < |tries| == |results|
  {
    && Smooth(tries[i].trouble) && results[i].last.Some? && Unbroken(Chunks(results[i].last.value.body))
    && Acceptable(results[i].last.value, |Resumed(FilesAfter(before, results[..i]).part, tries[i])|)
  }

  /** However the attempts before it went, such an attempt leaves the resource. */
  lemma UndisturbedSucceeds(before: Files, tries: seq<Try>, results: seq<Result>, resource: Text, i: nat)
    requires Traced(before, tries, results) && i < |tries| && Undisturbed(before, tries, results, i)
    requires AllHonest(tries, resource) && AllSpeak(results) && PrefixOf(before.part, resource)
    requires |resource| <= MAX_U64
    ensures results[i].ok && results[i].files == Files(None, Some(resource))
  {
    HonestTrace(before, tries, results, resource, i);
    assert TracedAt(before, tries, results, i);
    AttemptSucceeds(FilesAfter(before, results[..i]), tries[i], results[i], resource);
  }

  /** Any sequence of attempts at one resource, each from where the one before it
      left the files. */
  method ResumeOverAndOver(tries: seq<Try>, part: Option<Text>, dest: Option<Text>, ghost resource: Text)
    returns (results: seq<Result>)
    ensures Traced(Files(part, dest), tries, results)
    ensures AllHonest(tries, resource) && AllSpeak(results) && PrefixOf(part, resource) ==>
              var after := FilesAfter(Files(part, dest), results);
              PrefixOf(after.part, resource) && after.dest == if SomeOk(results) then Some(resource) else dest
    ensures AllHonest(tries, resource) && AllSpeak(results) && PrefixOf(part, resource) && |resource| <= MAX_U64 ==>
              forall i :: 0 <= i < |tries| && Undisturbed(Files(part, dest), tries, results, i) ==>
                results[i].ok && results[i].files == Files(None, Some(resource))
  {
    results := MakeTries(tries, part, dest);
    var before := Files(part, dest);
    if AllHonest(tries, resource) && AllSpeak(results) && PrefixOf(part, resource) {
      HonestTrace(before, tries, results, resource, |tries|);
      assert results[..|tries|] == results;
      forall i | 0 <= i < |tries| && |resource| <= MAX_U64 && Undisturbed(before, tries, results, i)
        ensures results[i].ok && results[i].files == Files(None, Some(resource))
      {
        UndisturbedSucceeds(before, tries, results, resource, i);
      }
    }
  }

  method MakeTries(tries: seq<Try>, part: Option<Text>, dest: Option<Text>) returns (results: seq<Result>)
    ensures Traced(Files(part, dest), tries, results)
  {
    var d := new Downloader(part, dest, false);
    results := [];
    ghost var before := Files(part, dest);
    for i := 0 to |tries|
      invariant Traced(before, tries[..i], results) && d.View() == FilesAfter(before, results)
    {
      d.sink := Sink(tries[i].sink, []);
      var r := d.DownloadResource(tries[i]);
      TracedPush(before, tries[..i], results, tries[i], r);
      assert tries[..i + 1] == tries[..i] + [tries[i]];
      results := results + [r];
    }
    assert tries[..|tries|] == tries;
  }

  lemma TracedPush(before: Files, tries: seq<Try>, results: seq<Result>, t: Try, r: Result)
    requires Traced(before, tries, results) && AttemptRight(FilesAfter(before, results), t, r)
    ensures Traced(before, tries + [t], results + [r]) && FilesAfter(before, results + [r]) == r.files
  {
    assert (results + [r])[..|results|] == results;
    forall i | 0 <= i < |tries + [t]|
      ensures TracedAt(before, tries + [t], results + [r], i)
    {
      if i < |tries| {
        assert TracedAt(before, tries, results, i) && (results + [r])[..i] == results[..i];
      }
    }
  }

  const NO_CONTENT := Answer(Response(204, None, Empty), false)
  const NO_TROUBLE := Trouble(false, false, false, false, false, false, false, i => None, i => false)

  /** It need not be so otherwise: a truthful 204 to a fresh request succeeds and
      leaves an empty destination, whatever the resource. */
  method NoContentEmptiesDestination(dest: Option<Text>, ghost resource: Text) returns (dest': Option<Text>, ok: bool)
    ensures HonestHops([NO_CONTENT], resource) && ok && dest' == Some([])
  {
    var d := new Downloader(None, dest, false);
    var r := d.DownloadResource(Try([NO_CONTENT], true, NO_TROUBLE, false));
    assert r.last == Some(NO_CONTENT.response) && Completes(r.last.value, 0) && Outcome([], r.last.value) == [];
    SmoothSucceeds(r.last.value, 0, NO_TROUBLE);
    dest', ok := d.dest, r.ok;
  }

  /** The body of a response whose frames are those of `whole`, perhaps cut by an
      error or an abort, is one an honest server sends. */
  method StreamedBody(frames: seq<Frame>, end: End, asked: nat, ghost whole: Text) returns (body: Body)
    requires BodyOf(frames) <= whole && (end.Clean? ==> BodyOf(frames) == whole)
    ensures Carries(body, whole)
  {
    var chunks := StreamResponse(frames, end, asked);
    body := Stream(chunks);
  }
}
