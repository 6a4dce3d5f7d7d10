/** One worker of a shared or pinned pool as a transition system: its channel
    and in-flight counter, its worker thread, its tasks, its keyed states and
    its interruption requests. An action is one atomic operation, one
    mutex-protected method or one arm of the worker's `select!`; the environment
    picks the interleaving. Each component says what it does on each action.
    The shared loop is the case in which no task ever returns a keyed state. */
module WorkerLoop {
  import opened Basics
  import opened Interrupts
  import opened Execution
  import opened TaskLife

  type TaskId = nat

  datatype Action =
    // spawners
    | Reserve(t: TaskId, key: Key)
    | ReserveIfIdle(t: TaskId, key: Key)
    | Send(t: TaskId)
    | Unreserve(t: TaskId)
    | DropSenders
    // holders of task handles, users of the interrupt handle, terminate
    | ByHandle(t: TaskId, e: Event)
    | UserInterrupt
    | UserClear
    | UserScoped
    | UserRelease
    | Terminate
    // the worker thread
    | SeeTerminate
    | Recv
    | RecvClosed
    | Start                // begin_start and, if it wins, the factory call
    | Advance(e: Event)    // install_abort, join or reply of the held task
    | Finalize             // finish of the held task
    | ReleaseGuard
    | Decrement
    | Break
    | DrainRecv
    | DrainEmpty
    | DropReceiver

  // ---------- the channel and the in-flight counter

  datatype Channel = Channel(
    capacity: nat,
    open: bool,                     // the receiver exists
    sendersGone: bool,
    inflight: int,                  // the atomic counter
    reserving: map<TaskId, Key>,    // spawners between the increment and the end of their send
    queue: seq<TaskId>,
    held: Option<TaskId>,           // received and not yet settled
    // what has happened so far, in order
    accepted: seq<TaskId>,          // tasks a send put into the channel
    settled: seq<TaskId>,           // decrements made by the worker thread
    stranded: seq<TaskId>)          // tasks dropped together with the receiver

  predicate ChannelCan(c: Channel, a: Action) {
    match a
    case Reserve(t, _) => t !in c.reserving && t !in c.accepted && !c.sendersGone
    case ReserveIfIdle(t, _) => t !in c.reserving && t !in c.accepted && !c.sendersGone && c.inflight == 0
    case Send(t) => t in c.reserving && c.open && |c.queue| < c.capacity
    case Unreserve(t) => t in c.reserving
    case DropSenders => |c.reserving| == 0
    case Recv => c.held.None? && c.queue != []
    case RecvClosed => c.held.None? && c.queue == [] && c.sendersGone
    case Start | Advance(_) | Finalize | ReleaseGuard | Decrement => c.held.Some?
    case Break => c.held.None?
    case DrainRecv => c.held.None? && c.queue != []
    case DrainEmpty => c.held.None? && c.queue == []
    case DropReceiver => c.open && c.held.None?
    case _ => true
  }

  function NextChannel(c: Channel, a: Action): Channel
    requires ChannelCan(c, a)
  {
    match a
    case Reserve(t, key) => c.(inflight := c.inflight + 1, reserving := c.reserving[t := key])
    case ReserveIfIdle(t, key) => c.(inflight := 1, reserving := c.reserving[t := key])
    case Send(t) => c.(reserving := c.reserving - {t}, queue := c.queue + [t], accepted := c.accepted + [t])
    case Unreserve(t) => c.(inflight := c.inflight - 1, reserving := c.reserving - {t})
    case DropSenders => c.(sendersGone := true)
    case Recv | DrainRecv => c.(queue := c.queue[1..], held := Some(c.queue[0]))
    case Decrement => c.(inflight := c.inflight - 1, settled := c.settled + [c.held.value], held := None)
    case DropReceiver => c.(open := false, stranded := c.queue, queue := [])
    case _ => c
  }

  // ---------- the worker thread

  datatype Loop = Looping | Draining | DrainedOut | Stopped

  /** `terminate` is the stored permit of the terminate signal. */
  datatype Control = Control(loop: Loop, shuttingDown: bool, terminate: bool)

  predicate ControlCan(s: Control, a: Action) {
    match a
    case SeeTerminate => s.loop.Looping? && s.terminate && !s.shuttingDown
    case Recv | RecvClosed => s.loop.Looping? && !s.shuttingDown
    case Break => s.loop.Looping? && s.shuttingDown
    case DrainRecv | DrainEmpty => s.loop.Draining?
    case DropReceiver => s.loop.DrainedOut?
    case _ => true
  }

  function NextControl(s: Control, a: Action): Control {
    match a
    case Terminate => s.(terminate := true)
    case SeeTerminate => s.(terminate := false, shuttingDown := true)
    case RecvClosed => s.(shuttingDown := true)
    case Break => s.(loop := Draining)
    case DrainEmpty => s.(loop := DrainedOut)
    case DropReceiver => s.(loop := Stopped)
    case _ => s
  }

  // ---------- the worker

  /** A run of a task's future: the keyed state its factory was given and the
      keyed state it left behind. */
  datatype Run = Run(t: TaskId, key: Key, given: Option<KeyedState>, left: Option<KeyedState>)

  /** Keyed states; `started` records the factory calls and `runs` the runs that
      have ended. */
  datatype Keyed = Keyed(states: map<Key, KeyedState>, started: seq<TaskId>, runs: seq<Run>)

  /** `userGuards` counts the scoped requests held by users of the interrupt handle. */
  datatype Signals = Signals(requests: Requests, userGuards: nat)

  type Tasks = map<TaskId, Task>

  datatype Worker = Worker(chan: Channel, ctl: Control, tasks: Tasks, keyed: Keyed, sig: Signals)

  function Init(capacity: nat): Worker {
    Worker(Channel(capacity, true, false, 0, map[], [], None, [], [], []), Control(Looping, false, false),
           map[], Keyed(map[], [], []), Signals(NO_REQUESTS, 0))
  }

  /** The task an action is about and what happens to it. */
  datatype Touch = Nothing | Touch(t: TaskId, e: Event)

  function TouchOf(w: Worker, a: Action): Touch
    requires ChannelCan(w.chan, a)
  {
    match a
    case ByHandle(t, e) => Touch(t, e)
    case SeeTerminate => if w.chan.held.Some? then Touch(w.chan.held.value, FireAbort) else Nothing
    case Recv => Touch(w.chan.queue[0], Take)
    case DrainRecv => Touch(w.chan.queue[0], Drain)
    case Start =>
      var t := w.chan.held.value;
      Touch(t, Begin(if t in w.tasks then Lookup(w.keyed.states, w.tasks[t].key) else None))
    case Advance(e) => Touch(w.chan.held.value, e)
    case Finalize => Touch(w.chan.held.value, Close)
    case ReleaseGuard => Touch(w.chan.held.value, Release)
    case Decrement => Touch(w.chan.held.value, Settle)
    case _ => Nothing
  }

  predicate Enabled(w: Worker, a: Action) {
    && ChannelCan(w.chan, a)
    && ControlCan(w.ctl, a)
    && (a.ByHandle? ==> ByCaller(a.e) && (a.e.FailToReceive? ==> a.t in w.chan.stranded))
    && (a.Advance? ==> a.e.Install? || a.e.Join? || a.e.Reply?)
    && (a.UserRelease? ==> w.sig.userGuards > 0)
    && (var x := TouchOf(w, a); x.Touch? ==> x.t in w.tasks && CanDo(w.tasks[x.t], x.e))
  }

  function NextTasks(w: Worker, a: Action): Tasks
    requires Enabled(w, a)
  {
    var x := TouchOf(w, a);
    if a.Send? then w.tasks[a.t := NewTask(w.chan.reserving[a.t])]
    else if x.Touch? then w.tasks[x.t := Do(w.tasks[x.t], x.e)]
    else w.tasks
  }

  function NextKeyed(y: Keyed, t: TaskId, k: Task, e: Event): Keyed {
    if e.Begin? && BeginStart(k.exec).1 then
      y.(states := y.states - {k.key}, started := y.started + [t])
    else if e.Close? && k.stage.Closing? && InRun(k.stage) then
      var left := LeftBy(k.stage.why, k.exec.timeout);
      y.(states := if left.Some? then y.states[k.key := left.value] else y.states,
         runs := y.runs + [Run(t, k.key, GivenTo(k.stage), left)])
    else y
  }

  function NextSignals(s: Signals, a: Action): Signals {
    match a
    case UserInterrupt => s.(requests := Persist(s.requests))
    case UserClear => s.(requests := Unpersist(s.requests))
    case UserScoped => Signals(AddScoped(s.requests), s.userGuards + 1)
    case UserRelease => Signals(DropScoped(s.requests), if s.userGuards == 0 then 0 else s.userGuards - 1)
    case _ => s
  }

  /** A deadline that takes a guard adds a request; releasing it drops one. */
  function Interrupting(s: Signals, k: Task, e: Event): Signals {
    if e.Expire? && RequestTimeout(k.exec, e.d).takesGuard then s.(requests := AddScoped(s.requests))
    else if e.Release? && k.stage.Releasing? && k.stage.guard then s.(requests := DropScoped(s.requests))
    else s
  }

  function Apply(w: Worker, a: Action): Worker
    requires Enabled(w, a)
  {
    var x := TouchOf(w, a);
    Worker(
      NextChannel(w.chan, a),
      NextControl(w.ctl, a),
      NextTasks(w, a),
      if x.Touch? then NextKeyed(w.keyed, x.t, w.tasks[x.t], x.e) else w.keyed,
      if x.Touch? then Interrupting(w.sig, w.tasks[x.t], x.e) else NextSignals(w.sig, a))
  }

  /** The worker after a schedule of actions, if every action was enabled in turn. */
  function After(capacity: nat, acts: seq<Action>): Option<Worker> {
    if acts == [] then Some(Init(capacity))
    else
      var before := After(capacity, acts[..|acts| - 1]);
      if before.Some? && Enabled(before.value, acts[|acts| - 1])
      then Some(Apply(before.value, acts[|acts| - 1])) else None
  }
}
