/** Whole runs of the reconnecting worker, said of the script of its rounds alone:
    how many rounds it makes, how long it waits after each, and when it ends with
    an error. */
module SseRuns {
  import opened Basics
  import opened Bytes
  import opened SseParser
  import opened SseReconnect

  // ---------- what the script says

  /** An attempt after which the worker may try again. */
  predicate Passing(a: Attempt) {
    a.SendFails? || a.EmptyBody? || a.Body?
  }

  /** The waits since a stream last opened, before round `n`: one after every round
      since then. */
  function WaitsBefore(rounds: seq<Round>, n: nat): nat
    requires n <= |rounds|
  {
    if n == 0 then 0 else if rounds[n - 1].attempt.Body? then 1 else WaitsBefore(rounds, n - 1) + 1
  }

  /** The same when the attempt of round `n` has been made. */
  function WaitsAt(rounds: seq<Round>, n: nat): nat
    requires n < |rounds|
  {
    if rounds[n].attempt.Body? then 0 else WaitsBefore(rounds, n)
  }

  predicate RetryLeft(o: Options, rounds: seq<Round>, n: nat)
    requires n < |rounds|
  {
    o.enabled && (o.maxRetries.None? || WaitsAt(rounds, n) < o.maxRetries.value)
  }

  /** A wait follows the round. */
  predicate WaitFollows(o: Options, rounds: seq<Round>, n: nat)
    requires n < |rounds|
  {
    Passing(rounds[n].attempt) && RetryLeft(o, rounds, n)
  }

  /** Another round follows it. */
  predicate RoundFollows(o: Options, rounds: seq<Round>, n: nat)
    requires n < |rounds|
  {
    WaitFollows(o, rounds, n) && !rounds[n].stopsWait
  }

  /** `made` rounds are made: up to the first after which none follows. */
  predicate RoundsMade(o: Options, rounds: seq<Round>, made: nat) {
    && made <= |rounds| && (made == 0 ==> rounds == [])
    && (forall n :: 0 <= n < made - 1 ==> RoundFollows(o, rounds, n))
    && (0 < made < |rounds| ==> !RoundFollows(o, rounds, made - 1))
  }

  /** The last of these rounds ends the worker with an error: it was refused, or it
      failed and no retry is left. */
  predicate EndsInError(o: Options, rounds: seq<Round>, made: nat) {
    && 0 < made <= |rounds|
    && var a := rounds[made - 1].attempt;
       a.Refused? || ((a.SendFails? || (a.Body? && a.fails)) && !RetryLeft(o, rounds, made - 1))
  }

  /** The streams opened by the first `n` rounds. */
  function StreamsOpened(rounds: seq<Round>, n: nat): nat
    requires n <= |rounds|
  {
    if n == 0 then 0
    else
      var a := rounds[n - 1].attempt;
      StreamsOpened(rounds, n - 1) + if a.Body? || a.StoppedReading? then 1 else 0
  }

  /** What reading the first `n` streams leaves, waits apart. */
  function Listened(s: Stream, rounds: seq<Round>, n: nat, o: Options, c: Config): Stream
    requires n <= |rounds|
  {
    if n == 0 then s
    else
      var before := Listened(s, rounds, n - 1, o, c);
      match rounds[n - 1].attempt
      case StoppedReading(chunks) => ReadAll(before.(delay := FirstDelay(o)), chunks, c).stream
      case Body(chunks, _) => BodyRead(before.(delay := FirstDelay(o)), chunks, c)
      case _ => before
  }

  /** How long the wait after round `n` is: the delay the last stream left, doubled
      for every wait since, up to the longest. */
  function WaitAfter(s: Stream, rounds: seq<Round>, n: nat, o: Options, c: Config): nat
    requires n < |rounds|
  {
    Min(Listened(s, rounds, n + 1, o, c).delay * Pow2(WaitsAt(rounds, n)), LongestDelay(o))
  }

  predicate AllWaitsRight(s: Stream, rounds: seq<Round>, waited: seq<nat>, o: Options, c: Config) {
    |waited| <= |rounds| && forall n :: 0 <= n < |waited| ==> waited[n] == WaitAfter(s, rounds, n, o, c)
  }

  // ---------- one round

  /** The worker before round `n`. */
  ghost predicate Tracked(w: Worker, s: Stream, rounds: seq<Round>, n: nat, o: Options, c: Config)
    requires n <= |rounds|
  {
    var heard, waits := Listened(s, rounds, n, o, c), WaitsBefore(rounds, n);
    && w.retries == Min(waits, MAX_U32)
    && w.stream == heard.(delay := Min(heard.delay * Pow2(waits), LongestDelay(o)))
    && |w.waited| == n && AllWaitsRight(s, rounds, w.waited, o, c) && w.opens == StreamsOpened(rounds, n)
  }

  lemma RetryCount(w: Worker, waits: nat, o: Options)
    requires OptionsOk(o) && w.retries == Min(waits, MAX_U32)
    ensures ShouldReconnect(o, w.retries) <==> o.enabled && (o.maxRetries.None? || waits < o.maxRetries.value)
  {}

  /** The branches of the worker are those of the script. */
  lemma RoundBranches(w: Worker, s: Stream, rounds: seq<Round>, n: nat, o: Options, c: Config)
    requires OptionsOk(o) && n < |rounds| && Tracked(w, s, rounds, n, o, c)
    ensures AfterAttempt(o, w.retries, rounds[n].attempt).Again? <==> WaitFollows(o, rounds, n)
    ensures AfterAttempt(o, w.retries, rounds[n].attempt).WithError? <==> EndsInError(o, rounds, n + 1)
    ensures GoesOn(w, rounds[n], o) <==> RoundFollows(o, rounds, n)
  {
    RetryCount(w, WaitsBefore(rounds, n), o);
  }

  /** Reading a stream leaves what the script says, with the delay doubled as often as
      there were waits. */
  lemma ReadTracked(w: Worker, s: Stream, rounds: seq<Round>, n: nat, o: Options, c: Config)
    requires ConfigOk(o, c) && WorkerOk(w, c) && n < |rounds| && Tracked(w, s, rounds, n, o, c)
    ensures var w', heard := Read(w, rounds[n].attempt, o, c), Listened(s, rounds, n + 1, o, c);
            && w'.waited == w.waited && w'.opens == StreamsOpened(rounds, n + 1)
            && w'.stream == heard.(delay := w'.stream.delay)
            && (!rounds[n].attempt.StoppedReading? ==>
                  && w'.stream.delay == WaitAfter(s, rounds, n, o, c)
                  && w'.retries == Min(WaitsAt(rounds, n), MAX_U32))
  {
    HealthyRead(w, rounds[n].attempt, o, c);
    var before := Listened(s, rounds, n, o, c);
    assert w.stream.(delay := FirstDelay(o)) == before.(delay := FirstDelay(o));
    if rounds[n].attempt.Body? {
      var heard := Listened(s, rounds, n + 1, o, c);
      assert heard.delay * Pow2(0) == heard.delay;
    }
  }

  lemma WaitsPush(s: Stream, rounds: seq<Round>, waited: seq<nat>, o: Options, c: Config)
    requires AllWaitsRight(s, rounds, waited, o, c) && |waited| < |rounds|
    ensures AllWaitsRight(s, rounds, waited + [WaitAfter(s, rounds, |waited|, o, c)], o, c)
  {}

  lemma StepTracked(w: Worker, s: Stream, rounds: seq<Round>, n: nat, o: Options, c: Config)
    requires ConfigOk(o, c) && WorkerOk(w, c) && n < |rounds| && Tracked(w, s, rounds, n, o, c)
    requires WaitFollows(o, rounds, n)
    ensures Tracked(Step(w, rounds[n].attempt, o, c), s, rounds, n + 1, o, c)
  {
    var heard := Listened(s, rounds, n + 1, o, c);
    RoundBranches(w, s, rounds, n, o, c);
    ReadTracked(w, s, rounds, n, o, c);
    WaitsPush(s, rounds, w.waited, o, c);
    NextDelay(heard.delay, WaitsAt(rounds, n), WaitAfter(s, rounds, n, o, c), LongestDelay(o));
    assert WaitsBefore(rounds, n + 1) == WaitsAt(rounds, n) + 1;
  }

  // ---------- whole runs

  /** What the script says of a run of `made` rounds. */
  predicate RunRight(s: Stream, rounds: seq<Round>, made: nat, waited: seq<nat>, opens: nat, fails: bool, o: Options,
                     c: Config)
  {
    && RoundsMade(o, rounds, made) && AllWaitsRight(s, rounds, waited, o, c)
    && |waited| == made - (if made > 0 && !WaitFollows(o, rounds, made - 1) then 1 else 0)
    && opens == StreamsOpened(rounds, made) && (fails <==> EndsInError(o, rounds, made))
  }

  /** The worker before round `n`, all rounds before it having been followed by one more. */
  ghost predicate Reaches(w: Worker, s: Stream, rounds: seq<Round>, n: nat, o: Options, c: Config)
    requires n <= |rounds|
  {
    && WorkerOk(w, c) && Tracked(w, s, rounds, n, o, c)
    && forall m :: 0 <= m < n ==> RoundFollows(o, rounds, m)
  }

  lemma ReachesNext(w: Worker, s: Stream, rounds: seq<Round>, n: nat, o: Options, c: Config)
    requires ConfigOk(o, c) && n < |rounds| && Reaches(w, s, rounds, n, o, c) && RoundFollows(o, rounds, n)
    ensures GoesOn(w, rounds[n], o) && Reaches(Step(w, rounds[n].attempt, o, c), s, rounds, n + 1, o, c)
  {
    RoundBranches(w, s, rounds, n, o, c);
    HealthyStep(w, rounds[n].attempt, o, c);
    StepTracked(w, s, rounds, n, o, c);
  }

  lemma RunEnds(w: Worker, s: Stream, rounds: seq<Round>, n: nat, o: Options, c: Config)
    requires ConfigOk(o, c) && n < |rounds| && Reaches(w, s, rounds, n, o, c) && !RoundFollows(o, rounds, n)
    ensures !GoesOn(w, rounds[n], o)
    ensures var w' := Step(w, rounds[n].attempt, o, c);
            RunRight(s, rounds, n + 1, w'.waited, w'.opens,
                     AfterAttempt(o, w.retries, rounds[n].attempt).WithError?, o, c)
  {
    RoundBranches(w, s, rounds, n, o, c);
    ReadTracked(w, s, rounds, n, o, c);
    if WaitFollows(o, rounds, n) {
      StepTracked(w, s, rounds, n, o, c);
    }
  }

  lemma RunOver(w: Worker, s: Stream, rounds: seq<Round>, o: Options, c: Config)
    requires Reaches(w, s, rounds, |rounds|, o, c)
    ensures RunRight(s, rounds, |rounds|, w.waited, w.opens, false, o, c)
  {
    assert rounds != [] ==> RoundFollows(o, rounds, |rounds| - 1);
  }

  /** A run from round `n` on: this round, and the run from the next one on. */
  lemma RunNext(w: Worker, rounds: seq<Round>, n: nat, o: Options, c: Config)
    requires n < |rounds|
    ensures var rest, later := rounds[n..], rounds[n + 1..];
            var w' := Step(w, rounds[n].attempt, o, c);
            if GoesOn(w, rounds[n], o) then
              && Made(w, rest, o, c) == 1 + Made(w', later, o, c) && Run(w, rest, o, c) == Run(w', later, o, c)
              && Fails(w, rest, o, c) == Fails(w', later, o, c)
            else
              && Made(w, rest, o, c) == 1 && Run(w, rest, o, c) == w'
              && Fails(w, rest, o, c) == AfterAttempt(o, w.retries, rounds[n].attempt).WithError?
  {
    assert rounds[n..][1..] == rounds[n + 1..] && rounds[n..][0] == rounds[n];
  }

  lemma {:induction false} RunFrom(w: Worker, s: Stream, rounds: seq<Round>, n: nat, o: Options, c: Config, made: nat,
                                   w': Worker, fails: bool)
    requires ConfigOk(o, c) && n <= |rounds| && Reaches(w, s, rounds, n, o, c)
    requires made == n + Made(w, rounds[n..], o, c) && w' == Run(w, rounds[n..], o, c)
    requires fails == Fails(w, rounds[n..], o, c)
    ensures RunRight(s, rounds, made, w'.waited, w'.opens, fails, o, c)
    decreases |rounds| - n
  {
    if n == |rounds| {
      RunOver(w, s, rounds, o, c);
    } else {
      RunNext(w, rounds, n, o, c);
      if RoundFollows(o, rounds, n) {
        ReachesNext(w, s, rounds, n, o, c);
        RunFrom(Step(w, rounds[n].attempt, o, c), s, rounds, n + 1, o, c, made, w', fails);
      } else {
        RunEnds(w, s, rounds, n, o, c);
      }
    }
  }

  /** A new worker makes the rounds of the script, waits as it says and ends with an
      error exactly if it says so. */
  lemma ScriptDecides(o: Options, lastId: Option<Text>, room: nat, rounds: seq<Round>, c: Config)
    requires ConfigOk(o, c)
    ensures var w := NewWorker(o, lastId, room); var w' := Run(w, rounds, o, c);
            RunRight(w.stream, rounds, Made(w, rounds, o, c), w'.waited, w'.opens, Fails(w, rounds, o, c), o, c)
  {
    var w := NewWorker(o, lastId, room);
    assert rounds[0..] == rounds && w.stream.delay * Pow2(0) == w.stream.delay;
    RunFrom(w, w.stream, rounds, 0, o, c, Made(w, rounds, o, c), Run(w, rounds, o, c), Fails(w, rounds, o, c));
  }

  // ---------- a server that cannot be reached

  predicate NeverSent(rounds: seq<Round>) {
    forall n :: 0 <= n < |rounds| ==> rounds[n].attempt.SendFails? && !rounds[n].stopsWait
  }

  lemma {:induction false} NeverSentWaits(rounds: seq<Round>, n: nat, s: Stream, o: Options, c: Config)
    requires NeverSent(rounds) && n <= |rounds|
    ensures WaitsBefore(rounds, n) == n && Listened(s, rounds, n, o, c) == s && StreamsOpened(rounds, n) == 0
  {
    if n > 0 {
      NeverSentWaits(rounds, n - 1, s, o, c);
    }
  }

  /** If no request can be sent there is one round and then one for every retry, with
      waits that double from the base delay up to the longest; the worker ends with
      an error exactly when its retries are used up. */
  lemma UnreachableServer(o: Options, lastId: Option<Text>, room: nat, rounds: seq<Round>, made: nat, waited: seq<nat>,
                          opens: nat, fails: bool, c: Config)
    requires RunRight(NewWorker(o, lastId, room).stream, rounds, made, waited, opens, fails, o, c)
    requires NeverSent(rounds) && rounds != []
    ensures made == if !o.enabled then 1 else if o.maxRetries.None? then |rounds|
                    else Min(|rounds|, o.maxRetries.value + 1)
    ensures forall n :: 0 <= n < |waited| ==>
              waited[n] == Min(Max(1, o.baseDelay) * Pow2(n), Max(Max(1, o.baseDelay), o.maxDelay))
    ensures fails <==> !o.enabled || (o.maxRetries.Some? && o.maxRetries.value < |rounds|)
    ensures opens == 0
  {
    var s := NewWorker(o, lastId, room).stream;
    forall n | 0 <= n < |rounds|
      ensures WaitsBefore(rounds, n) == n && Listened(s, rounds, n + 1, o, c) == s
    {
      NeverSentWaits(rounds, n, s, o, c);
      NeverSentWaits(rounds, n + 1, s, o, c);
    }
    NeverSentWaits(rounds, made, s, o, c);
    assert made > 1 ==> RoundFollows(o, rounds, made - 2);
    assert forall n :: 0 <= n < |waited| ==> waited[n] == WaitAfter(s, rounds, n, o, c);
  }

  // ---------- the worker of the host

  method MakeRounds(o: Options, lossy: Text -> Text, lastId: Option<Text>, room: nat, script: seq<Round>)
    returns (w: SseWorker, made: nat)
    requires OptionsOk(o)
    ensures var start, c := NewWorker(o, lastId, room), Config(lossy, LongestDelay(o));
            w.View() == Run(start, script, o, c) && made == Made(start, script, o, c)
  {
    ghost var start, c := NewWorker(o, lastId, room), Config(lossy, LongestDelay(o));
    w := new SseWorker(o, lossy, lastId, room);
    var again := true;
    made := 0;
    while again && made < |script|
      invariant w.o == o && w.st.c == c && fresh(w) && fresh(w.st) && (again ==> w.Valid())
      invariant made <= |script|
      invariant again ==> Run(w.View(), script[made..], o, c) == Run(start, script, o, c)
      invariant again ==> made + Made(w.View(), script[made..], o, c) == Made(start, script, o, c)
      invariant !again ==> w.View() == Run(start, script, o, c) && made == Made(start, script, o, c)
      decreases |script| - made
    {
      assert script[made..][1..] == script[made + 1..];
      again := w.Connect(script[made]);
      made := made + 1;
    }
  }

  /** The worker over any script of attempts. It makes the rounds of the script and
      waits as it says; the consumer hears the events of the bodies in order and
      then an error exactly if the last round calls for one and it still listens. */
  method RunSseWorker(o: Options, lossy: Text -> Text, lastId: Option<Text>, room: nat, script: seq<Round>)
    returns (history: seq<Message>, waited: seq<nat>, opens: nat, made: nat)
    requires OptionsOk(o)
    ensures var w, c := NewWorker(o, lastId, room), Config(lossy, LongestDelay(o));
            && made == Made(w, script, o, c) && |waited| + (if Ends(w, script, o, c) then 1 else 0) == made
            && WaitsRight(waited, opens, Streaks(w, script, o, c), o) && AtMostOneError(history)
            && RunRight(w.stream, script, made, waited, opens, EndsInError(o, script, made), o, c)
            && var heard := HearAll(w.stream, script[..made], o, c);
               history == heard.sent + if EndsInError(o, script, made) && heard.room > 0 then [Err] else []
  {
    ghost var start, c := NewWorker(o, lastId, room), Config(lossy, LongestDelay(o));
    var w: SseWorker;
    w, made := MakeRounds(o, lossy, lastId, room, script);
    RunErrsOnce(start, script, o, c);
    RunHeard(start, script, o, c);
    OneWaitARound(start, script, o, c);
    RunWaitsRight(start, script, o, c);
    ScriptDecides(o, lastId, room, script, c);
    history, waited, opens := w.st.sent, w.waited, w.opens;
  }
}
