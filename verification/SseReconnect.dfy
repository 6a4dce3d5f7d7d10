/** The reconnecting worker of one event stream. */
module SseReconnect {
  import opened Basics
  import opened Bytes
  import opened SseParser

  const MAX_U32: nat := 0xFFFF_FFFF

  /** Delays in milliseconds, as they are after truncation to 64 bits. */
  datatype Options = Options(enabled: bool, maxRetries: Option<nat>, baseDelay: nat, maxDelay: nat)

  predicate OptionsOk(o: Options) {
    o.baseDelay <= MAX_U64 && o.maxDelay <= MAX_U64 && (o.maxRetries.Some? ==> o.maxRetries.value <= MAX_U32)
  }

  /** The delay a stream starts with, and the longest delay. */
  function FirstDelay(o: Options): nat {
    Max(1, o.baseDelay)
  }

  function LongestDelay(o: Options): nat {
    Max(FirstDelay(o), o.maxDelay)
  }

  /** How one attempt goes. `Refused` stands for a request that cannot be built or
      is not allowed, and for a response of the wrong status or content type. */
  datatype Attempt =
    | Refused
    | StoppedSending
    | SendFails
    | EmptyBody
    | StoppedReading(chunks: seq<Text>)
    | Body(chunks: seq<Text>, fails: bool)

  /** An attempt, and whether the wait after it would be stopped. */
  datatype Round = Round(attempt: Attempt, stopsWait: bool)

  predicate ShouldReconnect(o: Options, retries: nat) {
    o.enabled && (o.maxRetries.Some? ==> retries < o.maxRetries.value)
  }

  /** What follows an attempt made after `retries` retries. */
  datatype After = Again | Quietly | WithError

  function AfterAttempt(o: Options, retries: nat, a: Attempt): After {
    match a
    case Refused => WithError
    case StoppedSending | StoppedReading(_) => Quietly
    case SendFails => if ShouldReconnect(o, retries) then Again else WithError
    case EmptyBody => if ShouldReconnect(o, retries) then Again else Quietly
    case Body(_, fails) => if ShouldReconnect(o, 0) then Again else if fails then WithError else Quietly
  }

  function SaturatingMul(a: nat, b: nat): nat {
    Min(a * b, MAX_U64)
  }

  // ---------- one attempt

  /** `waited` are the waits so far, `opens` counts the streams that opened. */
  datatype Worker = Worker(stream: Stream, retries: nat, waited: seq<nat>, opens: nat)

  function NewWorker(o: Options, lastId: Option<Text>, room: nat): Worker {
    Worker(Stream(NO_PENDING, lastId, FirstDelay(o), [], room), 0, [], 0)
  }

  /** A stream that opened starts the retries and the delay over and is read. */
  function Read(w: Worker, a: Attempt, o: Options, c: Config): Worker {
    var start := w.stream.(delay := FirstDelay(o));
    match a
    case StoppedReading(chunks) => Worker(ReadAll(start, chunks, c).stream, 0, w.waited, w.opens + 1)
    case Body(chunks, _) => Worker(BodyRead(start, chunks, c), 0, w.waited, w.opens + 1)
    case _ => w
  }

  /** A wait takes the current delay and doubles it for the next one. */
  function Waiting(w: Worker, maxDelay: nat): Worker {
    w.(retries := Min(w.retries + 1, MAX_U32), waited := w.waited + [w.stream.delay],
       stream := w.stream.(delay := Min(SaturatingMul(w.stream.delay, 2), maxDelay)))
  }

  /** The consumer is told of the error if it still listens. */
  function Told(s: Stream): Stream {
    if s.room > 0 then s.(sent := s.sent + [Err], room := s.room - 1) else s
  }

  function Step(w: Worker, a: Attempt, o: Options, c: Config): Worker {
    var w' := Read(w, a, o, c);
    match AfterAttempt(o, w.retries, a)
    case Again => Waiting(w', c.maxDelay)
    case Quietly => w'
    case WithError => w'.(stream := Told(w'.stream))
  }

  predicate GoesOn(w: Worker, r: Round, o: Options) {
    AfterAttempt(o, w.retries, r.attempt).Again? && !r.stopsWait
  }

  /** The worker when the rounds are used up or it has stopped before. */
  function Run(w: Worker, rounds: seq<Round>, o: Options, c: Config): Worker
    decreases |rounds|
  {
    if rounds == [] then w
    else
      var w' := Step(w, rounds[0].attempt, o, c);
      if GoesOn(w, rounds[0], o) then Run(w', rounds[1..], o, c) else w'
  }

  /** How many rounds it makes. */
  function Made(w: Worker, rounds: seq<Round>, o: Options, c: Config): (n: nat)
    ensures n <= |rounds|
    decreases |rounds|
  {
    if rounds == [] then 0
    else if GoesOn(w, rounds[0], o) then 1 + Made(Step(w, rounds[0].attempt, o, c), rounds[1..], o, c)
    else 1
  }

  predicate WorkerOk(w: Worker, c: Config) {
    Healthy(w.stream, c.maxDelay)
  }

  predicate ConfigOk(o: Options, c: Config) {
    OptionsOk(o) && c.maxDelay == LongestDelay(o)
  }

  // ---------- what every attempt keeps

  lemma {:induction false} HealthyChunks(s: Stream, chunks: seq<Text>, c: Config)
    requires Healthy(s, c.maxDelay)
    ensures Healthy(ReadAll(s, chunks, c).stream, c.maxDelay)
  {
    if chunks != [] {
      var p := ReadAll(s, chunks[..|chunks| - 1], c);
      HealthyChunks(s, chunks[..|chunks| - 1], c);
      HealthyLines(p.stream, p.buf + chunks[|chunks| - 1], c);
    }
  }

  lemma HealthyRead(w: Worker, a: Attempt, o: Options, c: Config)
    requires ConfigOk(o, c) && WorkerOk(w, c)
    ensures WorkerOk(Read(w, a, o, c), c)
  {
    if a.StoppedReading? || a.Body? {
      var start := w.stream.(delay := FirstDelay(o));
      HealthyChunks(start, a.chunks, c);
      HealthyLines(ReadAll(start, a.chunks, c).stream, ReadAll(start, a.chunks, c).buf + [LF], c);
    }
  }

  lemma HealthyStep(w: Worker, a: Attempt, o: Options, c: Config)
    requires ConfigOk(o, c) && WorkerOk(w, c)
    ensures AfterAttempt(o, w.retries, a).Again? ==> WorkerOk(Step(w, a, o, c), c)
    ensures AtMostOneError(Step(w, a, o, c).stream.sent)
  {
    HealthyRead(w, a, o, c);
  }

  /** Errors, if any, come last. */
  predicate AtMostOneError(sent: seq<Message>) {
    forall i :: 0 <= i < |sent| - 1 ==> sent[i].Ok?
  }

  lemma {:induction false} RunErrsOnce(w: Worker, rounds: seq<Round>, o: Options, c: Config)
    requires ConfigOk(o, c) && WorkerOk(w, c)
    ensures AtMostOneError(Run(w, rounds, o, c).stream.sent)
    decreases |rounds|
  {
    if rounds != [] {
      HealthyStep(w, rounds[0].attempt, o, c);
      if GoesOn(w, rounds[0], o) {
        RunErrsOnce(Step(w, rounds[0].attempt, o, c), rounds[1..], o, c);
      }
    }
  }

  // ---------- the waits

  function Pow2(k: nat): nat {
    if k == 0 then 1 else 2 * Pow2(k - 1)
  }

  /** The waits since a stream last opened; `first` is the delay that was left
      when it had been read. */
  datatype Streak = Streak(first: nat, waits: seq<nat>)

  /** The streaks before the current one, and the current one. */
  datatype Log = Log(past: seq<Streak>, current: Streak)

  /** A stream that opens begins a streak with the delay its body leaves. */
  function ReadLog(l: Log, w: Worker, a: Attempt, o: Options, c: Config): Log {
    if a.StoppedReading? || a.Body? then Log(l.past + [l.current], Streak(Read(w, a, o, c).stream.delay, [])) else l
  }

  /** A retry adds the delay it waits to the current streak. */
  function WaitLog(l: Log, delay: nat): Log {
    l.(current := l.current.(waits := l.current.waits + [delay]))
  }

  function NextLog(l: Log, w: Worker, a: Attempt, o: Options, c: Config): Log {
    var l' := ReadLog(l, w, a, o, c);
    if AfterAttempt(o, w.retries, a).Again? then WaitLog(l', Read(w, a, o, c).stream.delay) else l'
  }

  function RunLog(l: Log, w: Worker, rounds: seq<Round>, o: Options, c: Config): Log
    decreases |rounds|
  {
    if rounds == [] then l
    else
      var l' := NextLog(l, w, rounds[0].attempt, o, c);
      if GoesOn(w, rounds[0], o) then RunLog(l', Step(w, rounds[0].attempt, o, c), rounds[1..], o, c) else l'
  }

  function AllWaits(streaks: seq<Streak>): seq<nat> {
    if streaks == [] then [] else AllWaits(streaks[..|streaks| - 1]) + streaks[|streaks| - 1].waits
  }

  lemma AllWaitsPush(past: seq<Streak>, streak: Streak)
    ensures AllWaits(past + [streak]) == AllWaits(past) + streak.waits
  {
    assert (past + [streak])[..|past|] == past;
  }

  /** The k-th wait is the first delay times two to the k, up to the longest; and
      there are no more waits than retries. */
  predicate StreakOk(s: Streak, o: Options) {
    && (forall k :: 0 <= k < |s.waits| ==> s.waits[k] == Min(s.first * Pow2(k), LongestDelay(o)))
    && 1 <= s.first <= LongestDelay(o)
    && (o.maxRetries.Some? ==> |s.waits| <= o.maxRetries.value)
    && (!o.enabled ==> s.waits == [])
  }

  /** The current streak accounts for the delay and the retry count. */
  predicate Tracks(s: Streak, delay: nat, retries: nat, maxDelay: nat) {
    delay == Min(s.first * Pow2(|s.waits|), maxDelay) && retries == Min(|s.waits|, MAX_U32)
  }

  predicate Accounted(l: Log, w: Worker, o: Options) {
    && StreakOk(l.current, o) && (forall i :: 0 <= i < |l.past| ==> StreakOk(l.past[i], o))
    && w.waited == AllWaits(l.past) + l.current.waits && w.opens == |l.past|
    && Tracks(l.current, w.stream.delay, w.retries, LongestDelay(o))
  }

  /** Doubling in saturating 64-bit arithmetic never strays from the powers of two. */
  lemma NextDelay(first: nat, k: nat, delay: nat, maxDelay: nat)
    requires delay == Min(first * Pow2(k), maxDelay) && maxDelay <= MAX_U64
    ensures Min(SaturatingMul(delay, 2), maxDelay) == Min(first * Pow2(k + 1), maxDelay)
  {
    assert first * Pow2(k + 1) == 2 * (first * Pow2(k));
  }

  lemma FreshStreak(delay: nat, o: Options)
    requires 1 <= delay <= LongestDelay(o)
    ensures StreakOk(Streak(delay, []), o) && Tracks(Streak(delay, []), delay, 0, LongestDelay(o))
  {
    assert delay * Pow2(0) == delay;
  }

  lemma ReadAccounted(l: Log, w: Worker, a: Attempt, o: Options, c: Config)
    requires ConfigOk(o, c) && WorkerOk(w, c) && Accounted(l, w, o)
    ensures Accounted(ReadLog(l, w, a, o, c), Read(w, a, o, c), o)
  {
    HealthyRead(w, a, o, c);
    AllWaitsPush(l.past, l.current);
    FreshStreak(Read(w, a, o, c).stream.delay, o);
  }

  lemma WaitAccounted(l: Log, w: Worker, o: Options)
    requires OptionsOk(o) && Accounted(l, w, o) && ShouldReconnect(o, w.retries)
    ensures Accounted(WaitLog(l, w.stream.delay), Waiting(w, LongestDelay(o)), o)
  {
    NextDelay(l.current.first, |l.current.waits|, w.stream.delay, LongestDelay(o));
  }

  lemma StepAccounted(l: Log, w: Worker, a: Attempt, o: Options, c: Config)
    requires ConfigOk(o, c) && WorkerOk(w, c) && Accounted(l, w, o)
    ensures Accounted(NextLog(l, w, a, o, c), Step(w, a, o, c), o)
  {
    ReadAccounted(l, w, a, o, c);
    if AfterAttempt(o, w.retries, a).Again? {
      WaitAccounted(ReadLog(l, w, a, o, c), Read(w, a, o, c), o);
    }
  }

  lemma {:induction false} RunAccounted(l: Log, w: Worker, rounds: seq<Round>, o: Options, c: Config)
    requires ConfigOk(o, c) && WorkerOk(w, c) && Accounted(l, w, o)
    ensures Accounted(RunLog(l, w, rounds, o, c), Run(w, rounds, o, c), o)
    decreases |rounds|
  {
    if rounds != [] {
      StepAccounted(l, w, rounds[0].attempt, o, c);
      if GoesOn(w, rounds[0], o) {
        HealthyStep(w, rounds[0].attempt, o, c);
        RunAccounted(NextLog(l, w, rounds[0].attempt, o, c), Step(w, rounds[0].attempt, o, c), rounds[1..], o, c);
      }
    }
  }

  /** The first streak keeps its first delay. */
  lemma {:induction false} FirstStays(l: Log, w: Worker, rounds: seq<Round>, o: Options, c: Config)
    ensures var l' := RunLog(l, w, rounds, o, c); (l'.past + [l'.current])[0].first == (l.past + [l.current])[0].first
    decreases |rounds|
  {
    if rounds != [] && GoesOn(w, rounds[0], o) {
      FirstStays(NextLog(l, w, rounds[0].attempt, o, c), Step(w, rounds[0].attempt, o, c), rounds[1..], o, c);
    }
  }

  /** The last round it makes is one after which it does not wait. */
  predicate Ends(w: Worker, rounds: seq<Round>, o: Options, c: Config)
    decreases |rounds|
  {
    rounds != [] &&
    if GoesOn(w, rounds[0], o) then Ends(Step(w, rounds[0].attempt, o, c), rounds[1..], o, c)
    else !AfterAttempt(o, w.retries, rounds[0].attempt).Again?
  }

  /** It waits once after every round it makes, but for the last one if that ends it. */
  lemma {:induction false} OneWaitARound(w: Worker, rounds: seq<Round>, o: Options, c: Config)
    ensures |Run(w, rounds, o, c).waited| + (if Ends(w, rounds, o, c) then 1 else 0)
         == |w.waited| + Made(w, rounds, o, c)
    decreases |rounds|
  {
    if rounds != [] && GoesOn(w, rounds[0], o) {
      OneWaitARound(Step(w, rounds[0].attempt, o, c), rounds[1..], o, c);
    }
  }

  // ---------- what the consumer hears

  /** The reference: a body adds the events of its bytes, whatever its chunks. */
  function Hear(s: Stream, a: Attempt, o: Options, c: Config): Stream {
    var start := Fresh(s.(delay := FirstDelay(o)));
    match a
    case StoppedReading(chunks) => Feed(start, Concat(chunks), c).stream
    case Body(chunks, _) => SseParser.Finish(Feed(start, Concat(chunks), c), c)
    case _ => s
  }

  function HearAll(s: Stream, rounds: seq<Round>, o: Options, c: Config): Stream
    decreases |rounds|
  {
    if rounds == [] then s else HearAll(Hear(s, rounds[0].attempt, o, c), rounds[1..], o, c)
  }

  /** Nobody can tell them apart: the same was sent, and while the consumer
      listens the same id goes with the next events. */
  predicate Alike(s: Stream, other: Stream) {
    SameSent(s, other) && (s.room > 0 ==> s.lastId == other.lastId)
  }

  lemma HearGone(s: Stream, a: Attempt, o: Options, c: Config)
    requires s.room == 0
    ensures SameSent(Hear(s, a, o, c), s)
  {
    if a.StoppedReading? || a.Body? {
      var start := Fresh(s.(delay := FirstDelay(o)));
      GoneForGood(start, Concat(a.chunks), c);
      FinishGone(Feed(start, Concat(a.chunks), c), c);
    }
  }

  /** One attempt, read in chunks until the consumer leaves, is heard like its bytes. */
  lemma ReadHeard(w: Worker, a: Attempt, o: Options, c: Config)
    ensures Alike(Read(w, a, o, c).stream, Hear(w.stream, a, o, c))
  {
    if a.StoppedReading? || a.Body? {
      var start := w.stream.(delay := FirstDelay(o));
      ReadAllAgrees(start, a.chunks, c);
      BodyAgrees(start, a.chunks, c);
    }
  }

  lemma HearAlike(s: Stream, other: Stream, a: Attempt, o: Options, c: Config)
    requires Alike(s, other)
    ensures Alike(Hear(s, a, o, c), Hear(other, a, o, c))
  {
    if s.room == 0 {
      HearGone(s, a, o, c);
      HearGone(other, a, o, c);
    } else {
      assert Fresh(s.(delay := FirstDelay(o))) == Fresh(other.(delay := FirstDelay(o)));
    }
  }

  lemma {:induction false} HearAllAlike(s: Stream, other: Stream, rounds: seq<Round>, o: Options, c: Config)
    requires Alike(s, other)
    ensures Alike(HearAll(s, rounds, o, c), HearAll(other, rounds, o, c))
    decreases |rounds|
  {
    if rounds != [] {
      HearAlike(s, other, rounds[0].attempt, o, c);
      HearAllAlike(Hear(s, rounds[0].attempt, o, c), Hear(other, rounds[0].attempt, o, c), rounds[1..], o, c);
    }
  }

  /** The last round it makes ends it with an error. */
  predicate Fails(w: Worker, rounds: seq<Round>, o: Options, c: Config)
    decreases |rounds|
  {
    rounds != [] &&
    if GoesOn(w, rounds[0], o) then Fails(Step(w, rounds[0].attempt, o, c), rounds[1..], o, c)
    else AfterAttempt(o, w.retries, rounds[0].attempt).WithError?
  }

  function Heard(w: Worker, rounds: seq<Round>, o: Options, c: Config): Stream {
    var heard := HearAll(w.stream, rounds[..Made(w, rounds, o, c)], o, c);
    if Fails(w, rounds, o, c) then Told(heard) else heard
  }

  /** The consumer hears the events of the bodies in order, the last id of one
      going on into the next, and then the error if the worker ends with one. */
  lemma {:induction false} RunHeard(w: Worker, rounds: seq<Round>, o: Options, c: Config)
    ensures Alike(Run(w, rounds, o, c).stream, Heard(w, rounds, o, c))
    decreases |rounds|
  {
    if rounds != [] {
      var a := rounds[0].attempt;
      var w' := Step(w, a, o, c);
      ReadHeard(w, a, o, c);
      if GoesOn(w, rounds[0], o) {
        var n := Made(w', rounds[1..], o, c);
        TailOfPrefix(rounds, n);
        RunHeard(w', rounds[1..], o, c);
        HearAllAlike(w'.stream, Hear(w.stream, a, o, c), rounds[1..][..n], o, c);
      } else {
        assert rounds[..1][1..] == [] && rounds[..1][0] == rounds[0];
        assert HearAll(w.stream, rounds[..1], o, c) == Hear(w.stream, a, o, c);
      }
    }
  }

  // ---------- the worker of the host

  class SseWorker {
    const o: Options
    const st: SseState
    var retries: nat
    var waited: seq<nat>
    var opens: nat

    ghost function View(): Worker
      reads this, st
    {
      Worker(st.View(), retries, waited, opens)
    }

    ghost predicate Valid()
      reads this, st
    {
      ConfigOk(o, st.c) && WorkerOk(View(), st.c)
    }

    constructor (o: Options, lossy: Text -> Text, lastId: Option<Text>, room: nat)
      requires OptionsOk(o)
      ensures Valid() && fresh(st) && this.o == o && st.c == Config(lossy, LongestDelay(o))
      ensures View() == NewWorker(o, lastId, room)
    {
      var delay := Max(1, o.baseDelay);
      this.o, retries, waited, opens := o, 0, [], 0;
      st := new SseState(Config(lossy, Max(delay, o.maxDelay)), lastId, delay, room);
    }

    /** Waits before the next attempt; true if stopped. */
    method WaitToReconnect(stops: bool) returns (stopped: bool)
      requires Valid()
      modifies this, st
      ensures Valid() && stopped == stops && View() == Waiting(old(View()), st.c.maxDelay)
    {
      retries := Min(retries + 1, MAX_U32);
      var delay := Min(st.delay, st.c.maxDelay);
      st.delay := Min(SaturatingMul(delay, 2), st.c.maxDelay);
      waited := waited + [delay];
      stopped := stops;
    }

    /** The last message to the consumer, if it still listens. */
    method SendError()
      modifies st
      ensures View() == old(View()).(stream := Told(old(st.View())))
    {
      if st.room > 0 {
        st.sent, st.room := st.sent + [Err], st.room - 1;
      }
    }

    /** A stream opened: the retries and the delay start over. */
    method Opened()
      requires Valid()
      modifies this, st
      ensures Valid() && retries == 0 && opens == old(opens) + 1 && waited == old(waited)
      ensures st.View() == old(st.View()).(delay := FirstDelay(o))
    {
      retries := 0;
      st.delay := Max(1, o.baseDelay);
      opens := opens + 1;
    }

    /** Reads an opened stream; true if the worker should go on. */
    method Listen(chunks: seq<Text>, fails: bool) returns (go: bool)
      requires Valid()
      modifies this, st
      ensures go <==> ShouldReconnect(o, 0)
      ensures go ==> Valid() && View() == Read(old(View()), Body(chunks, fails), o, st.c)
      ensures !go ==> View() == Step(old(View()), Body(chunks, fails), o, st.c)
    {
      Opened();
      BodyAgrees(st.View(), chunks, st.c);
      var failed := st.ReadBody(chunks, fails);
      if failed && !ShouldReconnect(o, retries) {
        SendError();
        return false;
      }
      if !o.enabled || (o.maxRetries.Some? && retries >= o.maxRetries.value) {
        return false;
      }
      return true;
    }

    /** One attempt and the wait after it; false when the worker is done. */
    method Connect(round: Round) returns (again: bool)
      requires Valid()
      modifies this, st
      ensures View() == Step(old(View()), round.attempt, o, st.c)
      ensures again <==> GoesOn(old(View()), round, o)
      ensures again ==> Valid()
    {
      match round.attempt {
        case Refused =>
          SendError();
          return false;
        case StoppedSending =>
          return false;
        case SendFails =>
          if !ShouldReconnect(o, retries) {
            SendError();
            return false;
          }
        case EmptyBody =>
          if !ShouldReconnect(o, retries) {
            return false;
          }
        case StoppedReading(chunks) =>
          Opened();
          var _ := st.ReadChunks(chunks);
          return false;
        case Body(chunks, fails) =>
          var go := Listen(chunks, fails);
          if !go {
            return false;
          }
      }
      var stopped := WaitToReconnect(round.stopsWait);
      again := !stopped;
    }
  }

  /** The streaks of a whole run. */
  function Streaks(w: Worker, rounds: seq<Round>, o: Options, c: Config): seq<Streak> {
    var l := RunLog(Log([], Streak(w.stream.delay, [])), w, rounds, o, c);
    l.past + [l.current]
  }

  /** A whole run. Its waits fall into one streak more than streams opened, the
      first streak starting from the base delay; every wait of a streak is its
      first delay times a power of two up to the longest, and there are no more
      of them than retries. */
  predicate WaitsRight(waited: seq<nat>, opens: nat, streaks: seq<Streak>, o: Options) {
    && waited == AllWaits(streaks) && |streaks| == opens + 1 && streaks[0].first == FirstDelay(o)
    && forall i :: 0 <= i < |streaks| ==> StreakOk(streaks[i], o)
  }

  lemma AccountedIsRight(l: Log, w: Worker, o: Options)
    requires Accounted(l, w, o) && (l.past + [l.current])[0].first == FirstDelay(o)
    ensures WaitsRight(w.waited, w.opens, l.past + [l.current], o)
  {
    AllWaitsPush(l.past, l.current);
  }

  lemma RunWaitsRight(w: Worker, rounds: seq<Round>, o: Options, c: Config)
    requires ConfigOk(o, c) && WorkerOk(w, c)
    requires w.stream.delay == FirstDelay(o) && w.retries == 0 && w.waited == [] && w.opens == 0
    ensures var w' := Run(w, rounds, o, c); WaitsRight(w'.waited, w'.opens, Streaks(w, rounds, o, c), o)
  {
    var l := Log([], Streak(w.stream.delay, []));
    FreshStreak(w.stream.delay, o);
    RunAccounted(l, w, rounds, o, c);
    FirstStays(l, w, rounds, o, c);
    AccountedIsRight(RunLog(l, w, rounds, o, c), Run(w, rounds, o, c), o);
  }
}
