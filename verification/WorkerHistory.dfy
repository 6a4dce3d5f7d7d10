/** What a worker is told over a whole schedule, by the users of its interrupt
    handle and by those who stop it, read off the schedule itself. */
module WorkerHistory {
  import opened Basics
  import opened Interrupts
  import opened Execution
  import opened TaskLife
  import opened WorkerLoop
  import opened WorkerProofs

  // ---------- interruption requests

  /** Users interrupted the worker and have not cleared that since. */
  predicate Persisted(acts: seq<Action>) {
    acts != [] &&
    match acts[|acts| - 1]
    case UserInterrupt => true
    case UserClear => false
    case _ => Persisted(acts[..|acts| - 1])
  }

  /** The scoped requests that users took and have not released. */
  function UserHolds(acts: seq<Action>): int {
    if acts == [] then 0
    else
      UserHolds(acts[..|acts| - 1]) +
      match acts[|acts| - 1]
      case UserScoped => 1
      case UserRelease => -1
      case _ => 0
  }

  /** The deadline of the held task won while it ran, and its request is not yet dropped. */
  predicate HeldLost(held: Option<Task>) {
    && held.Some?
    && ((InRun(held.value.stage) && held.value.caller.Won?)
        || (held.value.stage.Releasing? && held.value.stage.guard))
  }

  lemma SignalStep(s: Signals, k: Task, e: Event)
    ensures Interrupting(s, k, e).requests.persistent == s.requests.persistent
    ensures Interrupting(s, k, e).userGuards == s.userGuards
  {}

  lemma {:induction false} SignalsFromHistory(capacity: nat, acts: seq<Action>)
    requires After(capacity, acts).Some?
    ensures var s := After(capacity, acts).value.sig;
            s.requests.persistent == Persisted(acts) && s.userGuards == UserHolds(acts)
  {
    if acts != [] {
      var rest, a := acts[..|acts| - 1], acts[|acts| - 1];
      var w := After(capacity, rest).value;
      SignalsFromHistory(capacity, rest);
      var x := TouchOf(w, a);
      if x.Touch? {
        SignalStep(w.sig, w.tasks[x.t], x.e);
      }
    }
  }

  /** In every schedule the engine is interrupted exactly while a user's request
      stands or the running task has lost to its deadline. */
  lemma {:induction false} FlagFromHistory(capacity: nat, acts: seq<Action>)
    requires After(capacity, acts).Some?
    ensures var w := After(capacity, acts).value;
            w.sig.requests.flag <==>
              Persisted(acts) || UserHolds(acts) > 0 || HeldLost(HeldTask(w.tasks, w.chan))
  {
    SignalsFromHistory(capacity, acts);
    InterruptIsolation(capacity, acts);
  }

  // ---------- stopping

  /** Somebody asked for termination and the loop has not seen it yet. */
  predicate Asked(acts: seq<Action>) {
    acts != [] &&
    match acts[|acts| - 1]
    case Terminate => true
    case SeeTerminate => false
    case _ => Asked(acts[..|acts| - 1])
  }

  /** The loop has seen the request or the end of the channel. */
  predicate Told(acts: seq<Action>) {
    SeeTerminate in acts || RecvClosed in acts
  }

  lemma ControlStep(s: Control, a: Action)
    requires ControlCan(s, a)
    ensures NextControl(s, a).terminate == (a.Terminate? || (s.terminate && !a.SeeTerminate?))
    ensures NextControl(s, a).shuttingDown == (s.shuttingDown || a.SeeTerminate? || a.RecvClosed?)
    ensures NextControl(s, a).loop.Looping? == (s.loop.Looping? && !a.Break?)
    ensures (a.Break? ==> s.shuttingDown) && (a.SeeTerminate? ==> s.terminate)
  {}

  lemma CapacityStep(c: Channel, a: Action)
    requires ChannelCan(c, a) && |c.queue| <= c.capacity
    ensures NextChannel(c, a).capacity == c.capacity && |NextChannel(c, a).queue| <= c.capacity
    ensures NextChannel(c, a).sendersGone == (c.sendersGone || a.DropSenders?) && (a.RecvClosed? ==> c.sendersGone)
  {}

  /** In every schedule the loop ends only after it was told to, it is told to only if
      somebody asked or every sender is gone, and the channel keeps to its capacity. */
  lemma {:induction false} ControlFromHistory(capacity: nat, acts: seq<Action>)
    requires After(capacity, acts).Some?
    ensures var w := After(capacity, acts).value;
            && (w.ctl.terminate <==> Asked(acts)) && (w.ctl.shuttingDown <==> Told(acts))
            && (w.ctl.loop.Looping? <==> Break !in acts) && (!w.ctl.loop.Looping? ==> Told(acts))
            && w.chan.capacity == capacity && |w.chan.queue| <= capacity
            && (w.chan.sendersGone <==> DropSenders in acts) && (Asked(acts) ==> Terminate in acts)
            && (Told(acts) ==> Terminate in acts || DropSenders in acts)
  {
    if acts != [] {
      var rest, a := acts[..|acts| - 1], acts[|acts| - 1];
      var w := After(capacity, rest).value;
      ControlFromHistory(capacity, rest);
      ControlStep(w.ctl, a);
      CapacityStep(w.chan, a);
      assert acts == rest + [a];
    }
  }

  /** Past the call of the factory, or never to get there. */
  predicate Past(s: Stage) {
    !s.InChannel? && !s.Taken?
  }

  /** The loop is told to stop and is not about to start a task. */
  predicate Quiet(w: Worker) {
    w.ctl.shuttingDown && (w.chan.held.Some? ==> w.chan.held.value in w.tasks && Past(w.tasks[w.chan.held.value].stage))
  }

  lemma {:induction false} TaskPast(k: Task, e: Event)
    requires CanDo(k, e)
    ensures Past(k.stage) || e.Drain? ==> Past(Do(k, e).stage)
    ensures Past(k.stage) ==> !e.Begin?
    ensures k.aborted ==> Do(k, e).aborted
    ensures e.FireAbort? ==> k.stage.Active? && Do(k, e).stage == k.stage && Do(k, e).aborted
  {}

  /** A task in the channel that held none is taken to be closed. */
  lemma QuietTouch(w: Worker, a: Action)
    requires Enabled(w, a) && Quiet(w) && TouchOf(w, a).Touch?
    ensures Quiet(Apply(w, a)) && Apply(w, a).keyed.started == w.keyed.started
  {
    var x := TouchOf(w, a);
    TaskPast(w.tasks[x.t], x.e);
  }

  lemma QuietStep(w: Worker, a: Action)
    requires Placed(w.tasks, w.chan) && Enabled(w, a) && (a.Send? ==> a.t !in w.tasks)
    ensures Quiet(w) || a.SeeTerminate? || a.RecvClosed? ==>
              Quiet(Apply(w, a)) && Apply(w, a).keyed.started == w.keyed.started
  {
    if a.SeeTerminate? && w.chan.held.Some? {
      TaskPast(w.tasks[w.chan.held.value], FireAbort);
    } else if Quiet(w) && TouchOf(w, a).Touch? {
      QuietTouch(w, a);
    }
  }

  lemma AbortedStep(w: Worker, a: Action, t: TaskId)
    requires Enabled(w, a) && t in w.tasks && w.tasks[t].aborted && (a.Send? ==> a.t != t)
    ensures t in Apply(w, a).tasks && Apply(w, a).tasks[t].aborted
  {
    var x := TouchOf(w, a);
    if x.Touch? {
      TaskPast(w.tasks[x.t], x.e);
    }
  }

  lemma SendsAreNew(w: Worker, a: Action)
    requires Inv(w) && Enabled(w, a)
    ensures Placed(w.tasks, w.chan) && (a.Send? ==> a.t !in w.tasks)
  {}

  /** The two steps at the end of a schedule. */
  lemma LastStepQuiet(capacity: nat, acts: seq<Action>)
    requires acts != [] && After(capacity, acts).Some?
    ensures var w, w', a := After(capacity, acts[..|acts| - 1]).value, After(capacity, acts).value, acts[|acts| - 1];
            Quiet(w) || a.SeeTerminate? || a.RecvClosed? ==> Quiet(w') && w'.keyed.started == w.keyed.started
  {
    var rest, a := acts[..|acts| - 1], acts[|acts| - 1];
    InvAlways(capacity, rest);
    SendsAreNew(After(capacity, rest).value, a);
    QuietStep(After(capacity, rest).value, a);
  }

  predicate AbortedIn(w: Worker, t: TaskId) {
    t in w.tasks && w.tasks[t].aborted
  }

  lemma LastStepAborted(capacity: nat, acts: seq<Action>, t: TaskId)
    requires acts != [] && After(capacity, acts).Some?
    ensures var w, a := After(capacity, acts[..|acts| - 1]).value, acts[|acts| - 1];
            AbortedIn(w, t) || (a.SeeTerminate? && w.chan.held == Some(t)) ==> AbortedIn(After(capacity, acts).value, t)
  {
    var rest, a := acts[..|acts| - 1], acts[|acts| - 1];
    var w := After(capacity, rest).value;
    if AbortedIn(w, t) {
      InvAlways(capacity, rest);
      SendsAreNew(w, a);
      AbortedStep(w, a, t);
    } else if a.SeeTerminate? && w.chan.held == Some(t) {
      TaskPast(w.tasks[t], FireAbort);
    }
  }

  lemma {:induction false} RanBefore(capacity: nat, acts: seq<Action>, n: nat)
    requires After(capacity, acts).Some? && n <= |acts|
    ensures After(capacity, acts[..n]).Some?
  {
    if n == |acts| {
      assert acts[..n] == acts;
    } else {
      assert acts[..|acts| - 1][..n] == acts[..n];
      RanBefore(capacity, acts[..|acts| - 1], n);
    }
  }

  lemma {:induction false} QuietForGood(capacity: nat, acts: seq<Action>, n: nat)
    requires After(capacity, acts).Some? && n < |acts| && After(capacity, acts[..n]).Some?
    requires acts[n].SeeTerminate? || acts[n].RecvClosed?
    ensures Quiet(After(capacity, acts).value)
    ensures After(capacity, acts).value.keyed.started == After(capacity, acts[..n]).value.keyed.started
  {
    var rest := acts[..|acts| - 1];
    LastStepQuiet(capacity, acts);
    if n == |rest| {
      assert acts[..n] == rest;
    } else {
      assert rest[..n] == acts[..n] && rest[n] == acts[n];
      QuietForGood(capacity, rest, n);
    }
  }

  lemma {:induction false} AbortedForGood(capacity: nat, acts: seq<Action>, n: nat, t: TaskId)
    requires After(capacity, acts).Some? && n < |acts| && After(capacity, acts[..n]).Some?
    requires acts[n].SeeTerminate? && After(capacity, acts[..n]).value.chan.held == Some(t)
    ensures AbortedIn(After(capacity, acts).value, t)
  {
    var rest := acts[..|acts| - 1];
    LastStepAborted(capacity, acts, t);
    if n == |rest| {
      assert acts[..n] == rest;
    } else {
      assert rest[..n] == acts[..n] && rest[n] == acts[n];
      AbortedForGood(capacity, rest, n, t);
    }
  }

  /** Once the loop has seen the request to terminate, or the end of the channel,
      no factory is ever called again, and the task that ran when it saw the
      request has been aborted. */
  lemma {:induction false} StopsForGood(capacity: nat, acts: seq<Action>, n: nat)
    requires After(capacity, acts).Some? && n < |acts| && (acts[n].SeeTerminate? || acts[n].RecvClosed?)
    ensures After(capacity, acts[..n]).Some?
    ensures var before, w := After(capacity, acts[..n]).value, After(capacity, acts).value;
            && w.ctl.shuttingDown && w.keyed.started == before.keyed.started
            && (acts[n].SeeTerminate? && before.chan.held.Some? ==>
                  before.chan.held.value in w.tasks && w.tasks[before.chan.held.value].aborted)
  {
    RanBefore(capacity, acts, n);
    QuietForGood(capacity, acts, n);
    var held := After(capacity, acts[..n]).value.chan.held;
    if acts[n].SeeTerminate? && held.Some? {
      AbortedForGood(capacity, acts, n, held.value);
    }
  }
}
