/** The life of one task, from the channel to its result, as an automaton. Its
    events come from two sides that race: the holder of the task handle and the
    worker thread. Each event is one mutex-protected method, one atomic
    operation or one branch of the worker's `select!`. */
module TaskLife {
  import opened Basics
  import opened Execution

  type Key = string
  type KeyedState = int

  /** What a future returns: a success or an error of its own. */
  datatype Returned = Success(value: int) | Error(error: int)

  /** How the spawned future ended: it returned, perhaps with a keyed state, its
      abort handle fired, or it panicked. */
  datatype Outcome = Completed(value: Returned, next: Option<KeyedState>) | WasAborted | Panicked

  datatype TaskResult = Value(value: Returned) | TimeoutErr(d: nat) | AbortedErr | PanicErr

  /** The holder of the task handle: waiting, returned a timeout after winning
      `request_timeout`, lost it and waits for the result, got the result, got an
      error because the task was dropped with the channel, or dropped the handle. */
  datatype Caller = Waiting | Won(d: nat) | Lost | Received | Disconnected | Gone

  /** Why the worker is about to close a task. */
  datatype Why =
    | CancelledInQueue
    | CancelledStarting(given: Option<KeyedState>)
    | Ended(given: Option<KeyedState>, outcome: Outcome)
    | Drained

  datatype Stage =
    | InChannel
    | Taken                                    // received
    | Claimed(given: Option<KeyedState>)       // begin_start won, factory called
    | Active(given: Option<KeyedState>)        // abort handle published, future spawned
    | Closing(why: Why)                        // about to call finish
    | Releasing(guard: bool, result: TaskResult) // finish returned, its guard not yet dropped
    | Reporting(result: TaskResult)            // about to send the result
    | Settling                                 // about to decrement the counter
    | Settled
    | Crashed                                  // an expect or a debug_assert failed

  /** `outcome`, `finishes`, `verdict`, `results`, `starts` and `queuedTimeout`
      record what has happened: how the future ended, the calls of `finish` and
      what it returned, the results sent, the calls of the future factory, and
      whether the deadline won while the task was in the channel. */
  datatype Task = Task(
    key: Key, exec: Exec, stage: Stage, caller: Caller, aborted: bool,
    outcome: Option<Outcome>, finishes: nat, verdict: Option<nat>, results: seq<TaskResult>, starts: nat,
    queuedTimeout: bool)

  function NewTask(key: Key): Task {
    Task(key, NEW_EXEC, InChannel, Waiting, false, None, 0, None, [], 0, false)
  }

  datatype Event =
    // the holder of the handle
    | Expire(d: nat)
    | Receive
    | FailToReceive
    | DropHandle
    // the worker thread
    | Take
    | Drain
    | Begin(given: Option<KeyedState>)
    | Install
    | FireAbort
    | Join(outcome: Outcome)
    | Close
    | Release
    | Reply
    | Settle

  predicate ByCaller(e: Event) {
    e.Expire? || e.Receive? || e.FailToReceive? || e.DropHandle?
  }

  predicate CanDo(k: Task, e: Event) {
    match e
    case Expire(_) => k.caller.Waiting?
    case Receive => (k.caller.Waiting? || k.caller.Lost?) && k.results != []
    case FailToReceive => k.caller.Waiting? && k.stage.InChannel?
    case DropHandle => k.caller.Waiting? || k.caller.Lost?
    case Take => k.stage.InChannel?
    case Drain => k.stage.InChannel?
    case Begin(_) => k.stage.Taken?
    case Install => k.stage.Claimed?
    case FireAbort => k.stage.Active?
    case Join(outcome) => k.stage.Active? && (outcome.WasAborted? ==> k.aborted)
    case Close => k.stage.Closing?
    case Release => k.stage.Releasing?
    case Reply => k.stage.Reporting?
    case Settle => k.stage.Settling?
  }

  /** The keyed state an ended run leaves behind: what the future returned, unless
      a timeout, an abort or a panic ended it. */
  function LeftBy(why: Why, timeout: Option<nat>): Option<KeyedState> {
    if why.Ended? && timeout.None? && why.outcome.Completed? then why.outcome.next else None
  }

  function ResultOf(why: Why, timeout: Option<nat>): TaskResult {
    if timeout.Some? then TimeoutErr(timeout.value)
    else if why.Ended? && why.outcome.Completed? then Value(why.outcome.value)
    else if why.Ended? && why.outcome.Panicked? then PanicErr
    else AbortedErr
  }

  function DoBegin(k: Task, given: Option<KeyedState>): Task {
    var (e, claimed) := BeginStart(k.exec);
    if claimed then k.(exec := e, stage := Claimed(given), starts := k.starts + 1)
    else k.(stage := Closing(CancelledInQueue))
  }

  function DoInstall(k: Task): Task
    requires k.stage.Claimed?
  {
    var (e, installed) := InstallAbort(k.exec);
    if installed then k.(exec := e, stage := Active(k.stage.given))
    else if k.exec.phase != TimedOut then k.(stage := Crashed)
    else k.(aborted := true, stage := Closing(CancelledStarting(k.stage.given)))
  }

  function DoClose(k: Task): Task
    requires k.stage.Closing?
  {
    var (e, timeout, guard) := Finish(k.exec);
    var why := k.stage.why;
    k.(exec := e, verdict := timeout, finishes := k.finishes + 1,
       stage := if (why.CancelledInQueue? || why.CancelledStarting?) && timeout.None? then Crashed
                else Releasing(guard, ResultOf(why, timeout)))
  }

  function Do(k: Task, e: Event): Task
    requires CanDo(k, e)
  {
    match e
    case Expire(d) =>
      var r := RequestTimeout(k.exec, d);
      k.(exec := r.exec, caller := if r.won then Won(d) else Lost, aborted := k.aborted || r.aborts,
         queuedTimeout := k.queuedTimeout || k.exec.phase.Queued?)
    case Receive => k.(caller := Received)
    case FailToReceive => k.(caller := Disconnected)
    case DropHandle => k.(caller := Gone)
    case Take => k.(stage := Taken)
    case Drain => k.(stage := Closing(Drained))
    case Begin(given) => DoBegin(k, given)
    case Install => DoInstall(k)
    case FireAbort => k.(aborted := true)
    case Join(outcome) => k.(outcome := Some(outcome), stage := Closing(Ended(k.stage.given, outcome)))
    case Close => DoClose(k)
    case Release => k.(stage := Reporting(k.stage.result))
    case Reply => k.(results := k.results + [k.stage.result], stage := Settling)
    case Settle => k.(stage := Settled)
  }

  /** The task after a schedule of events, if each was possible in turn. */
  function AfterEvents(key: Key, events: seq<Event>): Option<Task> {
    if events == [] then Some(NewTask(key))
    else
      var before := AfterEvents(key, events[..|events| - 1]);
      if before.Some? && CanDo(before.value, events[|events| - 1])
      then Some(Do(before.value, events[|events| - 1])) else None
  }

  // ---------- what every event keeps

  /** `finish` has been called. */
  predicate IsClosed(s: Stage) {
    s.Releasing? || s.Reporting? || s.Settling? || s.Settled?
  }

  /** Received and not yet settled: the worker thread holds it. */
  predicate IsHeld(s: Stage) {
    !s.InChannel? && !s.Settled?
  }

  /** The factory has been called and the run has not ended. */
  predicate InRun(s: Stage) {
    s.Claimed? || s.Active? || (s.Closing? && (s.why.CancelledStarting? || s.why.Ended?))
  }

  function GivenTo(s: Stage): Option<KeyedState>
    requires InRun(s)
  {
    if s.Closing? then s.why.given else s.given
  }

  /** A task nobody has claimed: no interruption request, no abort handle. */
  predicate Unclaimed(e: Exec) {
    (e.phase.Queued? || e.phase.TimedOut?) && !e.guarded && !e.abortable
  }

  /** A claimed task holds an interruption request exactly when it timed out. */
  predicate ClaimedExec(e: Exec, live: Phase) {
    (e.phase == live || e.phase.TimedOut?) && e.guarded == e.phase.TimedOut?
  }

  /** The stage of a task decides which phases it can be in. */
  predicate PhaseOk(s: Stage, e: Exec) {
    && (e.timeout.Some? <==> e.phase.TimedOut?)
    && match s
       case InChannel => Unclaimed(e)
       case Taken => Unclaimed(e)
       case Claimed(_) => ClaimedExec(e, Starting) && !e.abortable
       case Active(_) => ClaimedExec(e, Running) && e.abortable
       case Closing(CancelledInQueue) => Unclaimed(e) && e.phase.TimedOut?
       case Closing(CancelledStarting(_)) => e.phase.TimedOut? && e.guarded
       case Closing(Ended(_, _)) => ClaimedExec(e, Running) && e.abortable
       case Closing(Drained) => Unclaimed(e)
       case Crashed => false
       case _ => e == Exec(Finished, false, None, false)
  }

  /** The timeout that decided the task, if one did: the one stored in it until
      `finish` takes it, the one `finish` returned afterwards. */
  function TimeoutOf(k: Task): Option<nat> {
    if IsClosed(k.stage) then k.verdict else k.exec.timeout
  }

  /** What a caller is to be told: the timeout `finish` returned, or else how the
      future ended; a task that never ran was aborted. */
  function ReportOf(verdict: Option<nat>, outcome: Option<Outcome>): TaskResult {
    if verdict.Some? then TimeoutErr(verdict.value)
    else if outcome.None? || outcome.value.WasAborted? then AbortedErr
    else if outcome.value.Panicked? then PanicErr
    else Value(outcome.value.value)
  }

  /** The outcome is recorded when the future has been joined. */
  predicate OutcomeOk(k: Task) {
    match k.stage
    case Closing(Ended(_, outcome)) => k.outcome == Some(outcome)
    case Releasing(_, _) | Reporting(_) | Settling | Settled => true
    case _ => k.outcome.None?
  }

  /** The deadline won over a task whose future had its abort handle published, or
      was about to. */
  predicate LostInRun(k: Task) {
    k.caller.Won? && k.starts == 1 && !k.stage.Claimed?
  }

  predicate TaskOk(k: Task) {
    && PhaseOk(k.stage, k.exec)
    && (k.caller.Won? ==> TimeoutOf(k) == Some(k.caller.d))
    && (TimeoutOf(k).Some? ==> k.caller == Won(TimeoutOf(k).value))
    && (k.caller.Lost? ==> IsClosed(k.stage))
    && k.finishes == (if IsClosed(k.stage) then 1 else 0)
    && |k.results| == (if k.stage.Settling? || k.stage.Settled? then 1 else 0)
    && OutcomeOk(k)
    && (k.results != [] ==> k.results[0] == ReportOf(k.verdict, k.outcome))
    && (k.stage.Releasing? || k.stage.Reporting? ==> k.stage.result == ReportOf(k.verdict, k.outcome))
    && (k.stage.Releasing? ==> (k.stage.guard ==> k.verdict.Some?))
    && (InRun(k.stage) ==> k.starts == 1)
    && (IsClosed(k.stage) ==> k.starts <= 1)
    && (!InRun(k.stage) && !IsClosed(k.stage) ==> k.starts == 0)
    && (k.queuedTimeout ==> k.starts == 0 && (k.exec.phase.TimedOut? || k.exec.phase.Finished?))
    && (LostInRun(k) ==> k.aborted)
  }

  lemma CallerKept(k: Task, e: Event)
    requires TaskOk(k) && CanDo(k, e) && ByCaller(e)
    ensures TaskOk(Do(k, e))
  {
  }

  lemma StartKept(k: Task, e: Event)
    requires TaskOk(k) && CanDo(k, e) && (e.Take? || e.Drain? || e.Begin? || e.Install?)
    ensures TaskOk(Do(k, e))
  {
  }

  lemma RunKept(k: Task, e: Event)
    requires TaskOk(k) && CanDo(k, e) && (e.FireAbort? || e.Join? || e.Close?)
    ensures TaskOk(Do(k, e))
  {
  }

  lemma EndKept(k: Task, e: Event)
    requires TaskOk(k) && CanDo(k, e) && (e.Release? || e.Reply? || e.Settle?)
    ensures TaskOk(Do(k, e))
  {
  }

  lemma TaskKept(k: Task, e: Event)
    requires TaskOk(k) && CanDo(k, e)
    ensures TaskOk(Do(k, e))
  {
    match e {
      case Expire(_) | Receive | FailToReceive | DropHandle => CallerKept(k, e);
      case Take | Drain | Begin(_) | Install => StartKept(k, e);
      case FireAbort | Join(_) | Close => RunKept(k, e);
      case Release | Reply | Settle => EndKept(k, e);
    }
  }

  lemma {:induction false} TaskAlways(key: Key, events: seq<Event>)
    requires AfterEvents(key, events).Some?
    ensures TaskOk(AfterEvents(key, events).value)
  {
    if events != [] {
      TaskAlways(key, events[..|events| - 1]);
      TaskKept(AfterEvents(key, events[..|events| - 1]).value, events[|events| - 1]);
    }
  }

  /** In every race of a deadline against the worker: the deadline wins exactly
      when the one call of `finish` returns it and the one result sent reports
      it, a caller that lost gets a result that is not a timeout, the factory
      runs at most once and never after the deadline won in the channel, and
      no `expect` or `debug_assert` fails. */
  lemma {:induction false} VerdictAgreement(key: Key, events: seq<Event>, d: nat)
    requires AfterEvents(key, events).Some?
    ensures var k := AfterEvents(key, events).value;
            && !k.stage.Crashed?
            && k.finishes <= 1 && |k.results| <= 1 && k.starts <= 1
            && (k.finishes == 1 ==> (k.caller == Won(d) <==> k.verdict == Some(d)))
            && (k.results != [] ==> (k.caller == Won(d) <==> k.results[0] == TimeoutErr(d)))
            && (k.results != [] ==> k.results[0] == ReportOf(k.verdict, k.outcome))
            && (k.caller.Lost? ==> k.finishes == 1 && k.verdict.None?)
            && (k.stage.Settled? ==> k.finishes == 1 && |k.results| == 1)
            && (k.queuedTimeout ==> k.starts == 0)
  {
    TaskAlways(key, events);
  }

  lemma AbortStep(k: Task, e: Event)
    requires TaskOk(k) && CanDo(k, e)
    ensures Do(k, e).aborted <==> k.aborted || e.FireAbort? || LostInRun(Do(k, e))
  {
    TaskKept(k, e);
  }

  lemma LostStays(k: Task, e: Event)
    requires TaskOk(k) && CanDo(k, e) && LostInRun(k)
    ensures LostInRun(Do(k, e))
  {
    TaskKept(k, e);
  }

  /** In every race the future is aborted if and only if the worker was told to
      terminate or the deadline won after the factory was called; a deadline
      aborts no task in the channel, and each task is aborted by its own. */
  lemma {:induction false} AbortAgreement(key: Key, events: seq<Event>)
    requires AfterEvents(key, events).Some?
    ensures var k := AfterEvents(key, events).value;
            k.aborted <==> FireAbort in events || (k.caller.Won? && k.starts == 1 && !k.stage.Claimed?)
  {
    if events != [] {
      var rest, e := events[..|events| - 1], events[|events| - 1];
      var k := AfterEvents(key, rest).value;
      AbortAgreement(key, rest);
      TaskAlways(key, rest);
      AbortStep(k, e);
      if LostInRun(k) {
        LostStays(k, e);
      }
      assert events == rest + [e];
    }
  }
}
