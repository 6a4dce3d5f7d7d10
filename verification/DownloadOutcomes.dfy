/** Which answers of a server complete a download, written out: the status codes,
    the ranges and the bytes. */
module DownloadOutcomes {
  import opened Basics
  import opened Bytes
  import opened Coalescing
  import opened ContentRanges
  import opened Downloads

  // ---------- redirects

  predicate Redirects(hop: Hop) {
    hop.Answer? && hop.followable && hop.response.status in {301, 302, 303, 307, 308}
  }

  /** After `n` redirects the server answers with `r`. */
  predicate AnsweredBy(hops: seq<Hop>, n: nat, r: Response) {
    && n < |hops| && (forall i :: 0 <= i < n ==> Redirects(hops[i]))
    && hops[n].Answer? && hops[n].response == r && r.status !in {301, 302, 303, 307, 308}
  }

  /** Up to `limit` redirects are followed, with a request each and one for the answer. */
  lemma {:induction false} AnswerReached(hops: seq<Hop>, n: nat, r: Response, limit: nat)
    requires AnsweredBy(hops, n, r) && n <= limit
    ensures Followed(hops, limit) == Some(r) && RequestsMade(hops, limit) == n + 1
    decreases n
  {
    if n > 0 {
      assert Redirects(hops[0]);
      assert forall i :: 0 <= i < n - 1 ==> hops[1..][i] == hops[i + 1];
      AnswerReached(hops[1..], n - 1, r, limit - 1);
    }
  }

  /** One redirect more is too many. */
  lemma {:induction false} TooManyRedirects(hops: seq<Hop>, limit: nat)
    requires limit < |hops| && (forall i :: 0 <= i <= limit ==> Redirects(hops[i]))
    ensures Followed(hops, limit) == None && RequestsMade(hops, limit) == limit + 1
  {
    assert Redirects(hops[0]);
    if limit > 0 {
      assert forall i :: 0 <= i < limit ==> hops[1..][i] == hops[i + 1];
      TooManyRedirects(hops[1..], limit - 1);
    }
  }

  // ---------- one attempt

  /** The attempt gets the answer after at most ten redirects, and no file operation fails. */
  ghost predicate Gets(before: Files, t: Try, result: Result, n: nat, r: Response) {
    AttemptRight(before, t, result) && Smooth(t.trouble) && AnsweredBy(t.hops, n, r) && n <= 10
  }

  lemma GetsAnswer(before: Files, t: Try, result: Result, n: nat, r: Response)
    requires Gets(before, t, result, n, r)
    ensures result.last == Some(r) && result.requests == n + 1
    ensures var offset := |Resumed(before.part, t)|; result.ok <==> Completes(r, offset)
  {
    AnswerReached(t.hops, n, r, MAX_DOWNLOAD_REDIRECTS);
    SmoothSucceeds(r, |Resumed(before.part, t)|, t.trouble);
  }

  predicate Arrives(body: Body, bytes: Text) {
    Unbroken(Chunks(body)) && Received(Chunks(body)) == bytes && |bytes| <= MAX_U64
  }

  /** A 206 with the rest of the resource completes a part file of it. */
  lemma RestCompletes(before: Files, t: Try, result: Result, n: nat, body: Body, resource: Text)
    requires t.resume && before.part.Some? && before.part.value <= resource
    requires 0 < |before.part.value| < |resource| <= MAX_U64 && Arrives(body, resource[|before.part.value|..])
    requires Gets(before, t, result, n,
                  Response(206, Some(Range(|before.part.value|, |resource| - 1, Some(|resource|))), body))
    ensures result.ok && result.files == Files(None, Some(resource)) && result.length == Some(|resource|)
    ensures result.requests == n + 1
  {
    var part := before.part.value;
    var r := Response(206, Some(Range(|part|, |resource| - 1, Some(|resource|))), body);
    GetsAnswer(before, t, result, n, r);
    assert part + resource[|part|..] == resource;
  }

  /** If the rest is cut, what came of it is kept for the next attempt. */
  lemma CutRestIsKept(before: Files, t: Try, result: Result, n: nat, body: Body, length: nat)
    requires t.resume && before.part.Some? && 0 < |before.part.value| < length <= MAX_U64
    requires !Unbroken(Chunks(body)) && |before.part.value| + |Received(Chunks(body))| <= length
    requires Gets(before, t, result, n, Response(206, Some(Range(|before.part.value|, length - 1, Some(length))), body))
    ensures !result.ok && result.files == Files(Some(before.part.value + Received(Chunks(body))), before.dest)
  {
    GetsAnswer(before, t, result, n, Response(206, Some(Range(|before.part.value|, length - 1, Some(length))), body));
  }

  /** A 200 with the whole resource completes a download, whatever the part file was. */
  lemma WholeCompletes(before: Files, t: Try, result: Result, n: nat, range: HeaderRange, body: Body, resource: Text)
    requires Arrives(body, resource) && Gets(before, t, result, n, Response(200, range, body))
    ensures result.ok && result.files == Files(None, Some(resource)) && result.length == None
  {
    GetsAnswer(before, t, result, n, Response(200, range, body));
    assert [] + resource == resource;
  }

  /** A 416 that names the length of the part file completes it. */
  lemma NothingLeftCompletes(before: Files, t: Try, result: Result, n: nat, body: Body, resource: Text)
    requires t.resume && before.part == Some(resource) && 0 < |resource| <= MAX_U64
    requires Gets(before, t, result, n, Response(416, Some(Unsatisfied(Some(|resource|))), body))
    ensures result.ok && result.files == Files(None, Some(resource))
  {
    GetsAnswer(before, t, result, n, Response(416, Some(Unsatisfied(Some(|resource|))), body));
    assert resource + [] == resource;
  }

  /** No other answer completes a part file; a 416 has it removed, and anything but
      the rest or the whole leaves it alone. */
  lemma NothingElseCompletes(before: Files, t: Try, result: Result, n: nat, r: Response)
    requires t.resume && before.part.Some? && before.part.value != [] && Gets(before, t, result, n, r)
    ensures var offset, bytes := |before.part.value|, Received(Chunks(r.body));
            result.ok <==>
              || (r.status == 200 && Arrives(r.body, bytes))
              || (r.status == 206 && Arrives(r.body, bytes) && bytes != []
                  && r.range == Some(Range(offset, offset + |bytes| - 1, Some(offset + |bytes|))))
              || (r.status == 416 && r.range == Some(Unsatisfied(Some(offset))))
    ensures !result.ok ==> result.files.dest == before.dest
    ensures !result.ok && r.status == 416 && !t.trouble.remove ==> result.files.part == None
    ensures r.status !in {200, 206, 416} ==> result.files == before
  {
    GetsAnswer(before, t, result, n, r);
  }

  /** Without a part file any success but a 206 completes a download. */
  lemma FreshCompletes(before: Files, t: Try, result: Result, n: nat, r: Response)
    requires (!t.resume || before.part.None? || before.part == Some([])) && Gets(before, t, result, n, r)
    ensures var bytes := Received(Chunks(r.body));
            && (result.ok <==> 200 <= r.status < 300 && r.status != 206 && Arrives(r.body, bytes))
            && (result.ok ==> result.files == Files(None, Some(bytes)))
            && (!result.ok ==> result.files.dest == before.dest)
  {
    GetsAnswer(before, t, result, n, r);
    assert [] + Received(Chunks(r.body)) == Received(Chunks(r.body));
  }

  /** A file operation that fails is never a success: creating the directory or the
      file, writing any chunk of a body or flushing it, renaming. */
  lemma FailureIsReported(before: Files, t: Try, result: Result, i: nat)
    requires AttemptRight(before, t, result)
    requires || t.trouble.dir || t.trouble.open || t.trouble.rename
             || (result.last.Some? && 200 <= result.last.value.status < 300
                 && (t.trouble.flush || (i < |Chunks(result.last.value.body)| && t.trouble.write(i).Some?)))
    ensures !result.ok && result.files.dest == before.dest
  {}
}
