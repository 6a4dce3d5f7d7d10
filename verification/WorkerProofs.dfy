/** What every action of a worker keeps. */
module WorkerProofs {
  import opened Basics
  import opened Interrupts
  import opened Execution
  import opened TaskLife
  import opened WorkerLoop

  function HeldSeq(c: Channel): seq<TaskId> {
    if c.held.Some? then [c.held.value] else []
  }

  // ---------- the channel and the counter

  /** Tasks move through the channel in order, and nothing is lost but what is
      dropped together with the receiver. */
  ghost predicate Ordered(c: Channel) {
    && c.accepted == c.settled + HeldSeq(c) + c.queue + c.stranded
    && Distinct(c.accepted)
    && (forall t :: t in c.reserving ==> t !in c.accepted)
    && (c.open ==> c.stranded == [])
    && (!c.open ==> c.queue == [] && c.held.None?)
  }

  /** The counter holds one for every reservation and every accepted task not yet settled. */
  predicate Counted(c: Channel) {
    c.inflight == |c.reserving| + |HeldSeq(c)| + |c.queue| + |c.stranded|
  }

  lemma OrderPop(c: Channel)
    requires Ordered(c) && c.held.None? && c.queue != []
    ensures c.accepted == c.settled + [c.queue[0]] + c.queue[1..] + c.stranded
  {
    assert c.queue == [c.queue[0]] + c.queue[1..];
  }

  lemma OrderSend(c: Channel, t: TaskId)
    requires Ordered(c) && c.open && t !in c.accepted
    ensures c.accepted + [t] == c.settled + HeldSeq(c) + (c.queue + [t]) + c.stranded && Distinct(c.accepted + [t])
  {
  }

  lemma OrderKept(c: Channel, a: Action)
    requires Ordered(c) && ChannelCan(c, a)
    ensures Ordered(NextChannel(c, a))
  {
    if a.Recv? || a.DrainRecv? {
      OrderPop(c);
    } else if a.Send? {
      OrderSend(c, a.t);
    }
  }

  lemma CountKept(c: Channel, a: Action)
    requires Counted(c) && ChannelCan(c, a) && (a.DropReceiver? ==> c.stranded == [])
    ensures Counted(NextChannel(c, a))
  {
    var c' := NextChannel(c, a);
    if a.Reserve? || a.ReserveIfIdle? {
      assert c'.reserving.Keys == c.reserving.Keys + {a.t};
    } else if a.Send? || a.Unreserve? {
      assert c'.reserving.Keys == c.reserving.Keys - {a.t};
    }
  }

  // ---------- tasks

  ghost predicate TasksOk(tasks: Tasks) {
    forall t :: t in tasks ==> TaskOk(tasks[t])
  }

  lemma TasksKept(w: Worker, a: Action)
    requires TasksOk(w.tasks) && Enabled(w, a)
    ensures TasksOk(NextTasks(w, a))
  {
    var x := TouchOf(w, a);
    if x.Touch? {
      TaskKept(w.tasks[x.t], x.e);
    }
  }

  // ---------- where tasks are

  /** The stage of a task says where it is. */
  predicate InPlace(k: Task, t: TaskId, c: Channel) {
    && (k.stage.InChannel? <==> t in c.queue || t in c.stranded)
    && (k.stage.Settled? <==> t in c.settled)
    && (IsHeld(k.stage) <==> c.held == Some(t))
  }

  ghost predicate Placed(tasks: Tasks, c: Channel) {
    && (forall t :: t in tasks <==> t in c.accepted)
    && (forall t :: t in tasks ==> InPlace(tasks[t], t, c))
  }

  lemma StageMoves(k: Task, e: Event)
    requires CanDo(k, e)
    ensures var k' := Do(k, e);
            && k'.key == k.key
            && (ByCaller(e) ==> k'.stage == k.stage)
            && (e.Take? || e.Drain? ==> k.stage.InChannel? && IsHeld(k'.stage))
            && (e.Settle? ==> IsHeld(k.stage) && k'.stage.Settled?)
            && (!ByCaller(e) && !e.Take? && !e.Drain? && !e.Settle? ==> IsHeld(k.stage) && IsHeld(k'.stage))
  {
  }

  lemma AcceptedParts(c: Channel)
    requires Ordered(c)
    ensures forall t :: t in c.accepted <==> t in c.settled || c.held == Some(t) || t in c.queue || t in c.stranded
    ensures forall t :: t in c.queue ==> t !in c.settled && c.held != Some(t) && t !in c.stranded
    ensures forall t :: t in c.settled ==> c.held != Some(t)
    ensures Distinct(c.queue)
  {
    DistinctParts(c.settled + HeldSeq(c) + c.queue, c.stranded);
    DistinctParts(c.settled + HeldSeq(c), c.queue);
    DistinctParts(c.settled, HeldSeq(c));
  }

  lemma PlacedSend(tasks: Tasks, c: Channel, t: TaskId, k: Task)
    requires Placed(tasks, c) && ChannelCan(c, Send(t)) && Ordered(c) && k.stage.InChannel?
    ensures Placed(tasks[t := k], NextChannel(c, Send(t)))
  {
    AcceptedParts(c);
  }

  lemma PopParts(queue: seq<TaskId>)
    requires queue != [] && Distinct(queue)
    ensures forall t :: t in queue <==> t == queue[0] || t in queue[1..]
    ensures queue[0] !in queue[1..]
  {
    assert queue == [queue[0]] + queue[1..];
  }

  lemma PlacedPop(tasks: Tasks, c: Channel, k: Task)
    requires Placed(tasks, c) && ChannelCan(c, Recv) && Ordered(c) && IsHeld(k.stage)
    ensures Placed(tasks[c.queue[0] := k], NextChannel(c, Recv))
  {
    var tasks', c' := tasks[c.queue[0] := k], NextChannel(c, Recv);
    AcceptedParts(c);
    PopParts(c.queue);
    forall t | t in tasks'
      ensures InPlace(tasks'[t], t, c')
    {
      assert t in tasks && InPlace(tasks[t], t, c);
    }
  }

  lemma PlacedSettle(tasks: Tasks, c: Channel, k: Task)
    requires Placed(tasks, c) && ChannelCan(c, Decrement) && Ordered(c) && k.stage.Settled?
    ensures Placed(tasks[c.held.value := k], NextChannel(c, Decrement))
  {
    AcceptedParts(c);
  }

  lemma PlacedTouch(tasks: Tasks, c: Channel, t: TaskId, k: Task)
    requires Placed(tasks, c) && t in tasks
    requires k.stage == tasks[t].stage || (IsHeld(k.stage) && IsHeld(tasks[t].stage))
    ensures Placed(tasks[t := k], c)
  {
  }

  lemma PlacesKeptByTouch(w: Worker, a: Action)
    requires Ordered(w.chan) && Placed(w.tasks, w.chan) && Enabled(w, a) && TouchOf(w, a).Touch?
    ensures Placed(NextTasks(w, a), NextChannel(w.chan, a))
  {
    var x, c := TouchOf(w, a), w.chan;
    var k := Do(w.tasks[x.t], x.e);
    StageMoves(w.tasks[x.t], x.e);
    if a.Recv? || a.DrainRecv? {
      PlacedPop(w.tasks, c, k);
    } else if a.Decrement? {
      PlacedSettle(w.tasks, c, k);
    } else {
      PlacedTouch(w.tasks, c, x.t, k);
      assert NextChannel(c, a) == c;
    }
  }

  lemma PlacesKept(w: Worker, a: Action)
    requires Ordered(w.chan) && Placed(w.tasks, w.chan) && Enabled(w, a)
    ensures Placed(NextTasks(w, a), NextChannel(w.chan, a))
  {
    if TouchOf(w, a).Touch? {
      PlacesKeptByTouch(w, a);
    } else if a.Send? {
      PlacedSend(w.tasks, w.chan, a.t, NewTask(w.chan.reserving[a.t]));
    }
  }

  // ---------- interruption requests

  /** The task's timeout interrupts the worker. */
  predicate HoldsRequest(k: Task) {
    k.exec.guarded || (k.stage.Releasing? && k.stage.guard)
  }

  predicate HeldInterrupts(tasks: Tasks, held: Option<TaskId>) {
    held.Some? && held.value in tasks && HoldsRequest(tasks[held.value])
  }

  predicate SignalsOk(s: Signals, interrupting: bool) {
    FlagAgrees(s.requests) && s.requests.scoped == s.userGuards + (if interrupting then 1 else 0)
  }

  lemma InterruptMoves(k: Task, e: Event, s: Signals)
    requires TaskOk(k) && CanDo(k, e)
    ensures !IsHeld(k.stage) ==> !HoldsRequest(k) && !HoldsRequest(Do(k, e)) && Interrupting(s, k, e) == s
    ensures SignalsOk(s, HoldsRequest(k)) ==> SignalsOk(Interrupting(s, k, e), HoldsRequest(Do(k, e)))
    ensures e.Settle? ==> !HoldsRequest(Do(k, e))
  {
  }

  lemma SignalsKeptByTouch(w: Worker, a: Action)
    requires TasksOk(w.tasks) && Placed(w.tasks, w.chan) && Enabled(w, a) && TouchOf(w, a).Touch?
    requires SignalsOk(w.sig, HeldInterrupts(w.tasks, w.chan.held))
    ensures var w' := Apply(w, a); SignalsOk(w'.sig, HeldInterrupts(w'.tasks, w'.chan.held))
  {
    var x := TouchOf(w, a);
    InterruptMoves(w.tasks[x.t], x.e, w.sig);
    StageMoves(w.tasks[x.t], x.e);
    assert InPlace(w.tasks[x.t], x.t, w.chan);
  }

  lemma UserSignalsKept(s: Signals, a: Action, interrupting: bool)
    requires SignalsOk(s, interrupting) && (a.UserRelease? ==> s.userGuards > 0)
    ensures SignalsOk(NextSignals(s, a), interrupting)
  {
  }

  lemma HeldUntouched(w: Worker, a: Action)
    requires Ordered(w.chan) && Placed(w.tasks, w.chan) && Enabled(w, a) && TouchOf(w, a).Nothing?
    ensures HeldInterrupts(NextTasks(w, a), NextChannel(w.chan, a).held) == HeldInterrupts(w.tasks, w.chan.held)
  {
    assert a.Send? ==> a.t !in w.tasks;
  }

  lemma SignalsKept(w: Worker, a: Action)
    requires TasksOk(w.tasks) && Ordered(w.chan) && Placed(w.tasks, w.chan) && Enabled(w, a)
    requires SignalsOk(w.sig, HeldInterrupts(w.tasks, w.chan.held))
    ensures var w' := Apply(w, a); SignalsOk(w'.sig, HeldInterrupts(w'.tasks, w'.chan.held))
  {
    if TouchOf(w, a).Touch? {
      SignalsKeptByTouch(w, a);
    } else {
      HeldUntouched(w, a);
      UserSignalsKept(w.sig, a, HeldInterrupts(w.tasks, w.chan.held));
    }
  }

  // ---------- keyed state

  /** The ended runs of one key, in order. */
  function OfKey(runs: seq<Run>, key: Key): seq<Run> {
    if runs == [] then []
    else OfKey(runs[..|runs| - 1], key) + (if runs[|runs| - 1].key == key then [runs[|runs| - 1]] else [])
  }

  function LastLeft(rs: seq<Run>): Option<KeyedState> {
    if rs == [] then None else rs[|rs| - 1].left
  }

  /** A sequential actor: each run is given exactly what the previous one left. */
  predicate Chained(rs: seq<Run>) {
    && (rs != [] ==> rs[0].given.None?)
    && (forall i :: 0 < i < |rs| ==> rs[i].given == rs[i - 1].left)
  }

  predicate Running(k: Option<Task>) {
    k.Some? && InRun(k.value.stage)
  }

  /** The stored state of a key is what its last run left, except that the key
      of the current run has none: it was handed over. */
  ghost predicate StatesOk(y: Keyed, held: Option<Task>) {
    && (forall key :: Chained(OfKey(y.runs, key)))
    && (forall key :: !(Running(held) && held.value.key == key) ==>
          Lookup(y.states, key) == LastLeft(OfKey(y.runs, key)))
    && (Running(held) ==> held.value.key !in y.states)
    && (Running(held) ==> GivenTo(held.value.stage) == LastLeft(OfKey(y.runs, held.value.key)))
  }

  lemma ExtendChain(rs: seq<Run>, r: Run)
    requires Chained(rs) && r.given == LastLeft(rs)
    ensures Chained(rs + [r]) && LastLeft(rs + [r]) == r.left
  {
  }

  lemma AppendRun(runs: seq<Run>, r: Run, key: Key)
    requires Chained(OfKey(runs, key)) && (r.key == key ==> r.given == LastLeft(OfKey(runs, key)))
    ensures Chained(OfKey(runs + [r], key))
    ensures LastLeft(OfKey(runs + [r], key)) == if r.key == key then r.left else LastLeft(OfKey(runs, key))
  {
    assert (runs + [r])[..|runs|] == runs;
    if r.key == key {
      ExtendChain(OfKey(runs, key), r);
    } else {
      assert OfKey(runs + [r], key) == OfKey(runs, key);
    }
  }

  function EndedRun(t: TaskId, k: Task): Run
    requires k.stage.Closing? && InRun(k.stage)
  {
    Run(t, k.key, GivenTo(k.stage), LeftBy(k.stage.why, k.exec.timeout))
  }

  function StateLeft(states: map<Key, KeyedState>, r: Run): map<Key, KeyedState> {
    if r.left.Some? then states[r.key := r.left.value] else states
  }

  lemma CloseEndsRun(y: Keyed, t: TaskId, k: Task)
    requires k.stage.Closing? && InRun(k.stage)
    ensures var y', r := NextKeyed(y, t, k, Close), EndedRun(t, k);
            && y'.runs == y.runs + [r] && y'.states == StateLeft(y.states, r)
            && r.key == k.key && r.given == GivenTo(k.stage)
  {
  }

  lemma LookupLeft(states: map<Key, KeyedState>, r: Run, key: Key)
    ensures Lookup(StateLeft(states, r), key) == if r.key == key && r.left.Some? then r.left else Lookup(states, key)
  {
  }

  lemma EndRunKey(states: map<Key, KeyedState>, runs: seq<Run>, r: Run, key: Key)
    requires Chained(OfKey(runs, key))
    requires if r.key == key then key !in states && r.given == LastLeft(OfKey(runs, key))
             else Lookup(states, key) == LastLeft(OfKey(runs, key))
    ensures Chained(OfKey(runs + [r], key)) && Lookup(StateLeft(states, r), key) == LastLeft(OfKey(runs + [r], key))
  {
    AppendRun(runs, r, key);
    LookupLeft(states, r, key);
  }

  lemma EndRunStates(y: Keyed, t: TaskId, k: Task)
    requires StatesOk(y, Some(k)) && k.stage.Closing? && InRun(k.stage)
    ensures StatesOk(NextKeyed(y, t, k, Close), None)
  {
    var y', r := NextKeyed(y, t, k, Close), EndedRun(t, k);
    CloseEndsRun(y, t, k);
    forall key
      ensures Chained(OfKey(y'.runs, key)) && Lookup(y'.states, key) == LastLeft(OfKey(y'.runs, key))
    {
      EndRunKey(y.states, y.runs, r, key);
    }
  }

  lemma StatesSame(y: Keyed, h: Option<Task>, h': Option<Task>)
    requires StatesOk(y, h) && Running(h) == Running(h')
    requires Running(h) ==> h.value.key == h'.value.key && GivenTo(h.value.stage) == GivenTo(h'.value.stage)
    ensures StatesOk(y, h')
  {
  }

  lemma BeginStates(y: Keyed, t: TaskId, k: Task)
    requires StatesOk(y, Some(k)) && k.stage.Taken? && BeginStart(k.exec).1
    ensures var e := Begin(Lookup(y.states, k.key)); StatesOk(NextKeyed(y, t, k, e), Some(Do(k, e)))
  {
  }

  lemma StatesMove(y: Keyed, t: TaskId, k: Task, e: Event)
    requires TaskOk(k) && CanDo(k, e) && StatesOk(y, Some(k)) && (e.Begin? ==> e.given == Lookup(y.states, k.key))
    ensures StatesOk(NextKeyed(y, t, k, e), Some(Do(k, e)))
  {
    TaskKept(k, e);
    if e.Close? && InRun(k.stage) {
      EndRunStates(y, t, k);
      StatesSame(NextKeyed(y, t, k, e), None, Some(Do(k, e)));
    } else if e.Begin? && BeginStart(k.exec).1 {
      BeginStates(y, t, k);
    } else {
      StatesSame(y, Some(k), Some(Do(k, e)));
    }
  }

  function HeldTask(tasks: Tasks, c: Channel): Option<Task> {
    if c.held.Some? then Lookup(tasks, c.held.value) else None
  }

  /** An action on the held task: it stays held unless it is settled. */
  lemma TouchHeld(w: Worker, a: Action)
    requires Enabled(w, a) && TouchOf(w, a).Touch? && w.chan.held == Some(TouchOf(w, a).t)
    ensures var x, w' := TouchOf(w, a), Apply(w, a); var k := w.tasks[x.t];
            && w'.keyed == NextKeyed(w.keyed, x.t, k, x.e)
            && (x.e.Begin? ==> x.e.given == Lookup(w.keyed.states, k.key))
            && HeldTask(w'.tasks, w'.chan) == if a.Decrement? then None else Some(Do(k, x.e))
  {
    StageMoves(w.tasks[TouchOf(w, a).t], TouchOf(w, a).e);
  }

  /** An action on another task starts and ends no run. */
  lemma TouchOther(w: Worker, a: Action)
    requires Placed(w.tasks, w.chan) && Enabled(w, a) && TouchOf(w, a).Touch? && w.chan.held != Some(TouchOf(w, a).t)
    ensures var w' := Apply(w, a);
            && w'.keyed == w.keyed
            && Running(HeldTask(w'.tasks, w'.chan)) == Running(HeldTask(w.tasks, w.chan))
            && (Running(HeldTask(w.tasks, w.chan)) ==> HeldTask(w'.tasks, w'.chan) == HeldTask(w.tasks, w.chan))
  {
    var x := TouchOf(w, a);
    StageMoves(w.tasks[x.t], x.e);
    assert InPlace(w.tasks[x.t], x.t, w.chan);
  }

  lemma StatesKeptByTouch(w: Worker, a: Action)
    requires TasksOk(w.tasks) && Placed(w.tasks, w.chan) && Enabled(w, a) && TouchOf(w, a).Touch?
    requires StatesOk(w.keyed, HeldTask(w.tasks, w.chan))
    ensures var w' := Apply(w, a); StatesOk(w'.keyed, HeldTask(w'.tasks, w'.chan))
  {
    var x, w' := TouchOf(w, a), Apply(w, a);
    if w.chan.held == Some(x.t) {
      TouchHeld(w, a);
      StatesMove(w.keyed, x.t, w.tasks[x.t], x.e);
      StatesSame(w'.keyed, Some(Do(w.tasks[x.t], x.e)), HeldTask(w'.tasks, w'.chan));
    } else {
      TouchOther(w, a);
      StatesSame(w.keyed, HeldTask(w.tasks, w.chan), HeldTask(w'.tasks, w'.chan));
    }
  }

  lemma StatesKept(w: Worker, a: Action)
    requires TasksOk(w.tasks) && Ordered(w.chan) && Placed(w.tasks, w.chan) && Enabled(w, a)
    requires StatesOk(w.keyed, HeldTask(w.tasks, w.chan))
    ensures var w' := Apply(w, a); StatesOk(w'.keyed, HeldTask(w'.tasks, w'.chan))
  {
    if TouchOf(w, a).Touch? {
      StatesKeptByTouch(w, a);
    } else {
      assert a.Send? ==> a.t !in w.tasks;
      assert HeldTask(NextTasks(w, a), NextChannel(w.chan, a)) == HeldTask(w.tasks, w.chan);
    }
  }

  // ---------- order of the starts

  function RunIds(runs: seq<Run>): seq<TaskId> {
    seq(|runs|, i requires 0 <= i < |runs| => runs[i].t)
  }

  /** The tasks of `s` that are in `keep`, in order. */
  function Restrict(s: seq<TaskId>, keep: set<TaskId>): seq<TaskId> {
    if s == [] then []
    else Restrict(s[..|s| - 1], keep) + (if s[|s| - 1] in keep then [s[|s| - 1]] else [])
  }

  lemma {:induction false} RestrictFrame(s: seq<TaskId>, keep: set<TaskId>, t: TaskId)
    requires t !in s
    ensures Restrict(s, keep + {t}) == Restrict(s, keep)
  {
    if s != [] {
      RestrictFrame(s[..|s| - 1], keep, t);
    }
  }

  lemma RestrictAppend(s: seq<TaskId>, t: TaskId, keep: set<TaskId>)
    ensures Restrict(s + [t], keep) == Restrict(s, keep) + (if t in keep then [t] else [])
  {
    assert (s + [t])[..|s|] == s;
  }

  /** Received tasks, in order. */
  function TakenSeq(c: Channel): seq<TaskId> {
    c.settled + HeldSeq(c)
  }

  function RunningSeq(tasks: Tasks, c: Channel): seq<TaskId> {
    if Running(HeldTask(tasks, c)) then [c.held.value] else []
  }

  /** Factories are called in queue order, and the ended runs are those of the
      started tasks, in the same order. */
  ghost predicate StartOrder(y: Keyed, taken: seq<TaskId>, running: seq<TaskId>) {
    && y.started == RunIds(y.runs) + running
    && Restrict(taken, Elements(y.started)) == y.started
  }

  /** A run carries its task's key, and leaves exactly the state its future
      returned if that completed and no timeout decided the task; after a
      timeout, an abort or a panic it leaves none. */
  predicate RunOk(r: Run, k: Task) {
    && r.key == k.key && IsClosed(k.stage)
    && r.left == if k.verdict.None? && k.outcome.Some? && k.outcome.value.Completed? then k.outcome.value.next else None
  }

  lemma ClosedStays(k: Task, e: Event)
    requires TaskOk(k) && CanDo(k, e) && IsClosed(k.stage)
    ensures IsClosed(Do(k, e).stage) && Do(k, e).verdict == k.verdict && Do(k, e).outcome == k.outcome
  {
  }

  /** Exactly the started tasks count a start, and the ended runs are theirs. */
  ghost predicate StartCounts(y: Keyed, tasks: Tasks) {
    && (forall t :: t in tasks ==> (t in y.started <==> tasks[t].starts > 0))
    && (forall t :: t in y.started ==> t in tasks)
    && (forall i :: 0 <= i < |y.runs| ==> y.runs[i].t in tasks && RunOk(y.runs[i], tasks[y.runs[i].t]))
  }

  ghost predicate StartsOk(y: Keyed, tasks: Tasks, c: Channel) {
    StartOrder(y, TakenSeq(c), RunningSeq(tasks, c)) && StartCounts(y, tasks)
  }

  lemma StartsBegin(y: Keyed, taken: seq<TaskId>, t: TaskId)
    requires Restrict(taken + [t], Elements(y.started)) == y.started && t !in y.started && t !in taken
    ensures Restrict(taken + [t], Elements(y.started + [t])) == y.started + [t]
  {
    assert Elements(y.started + [t]) == Elements(y.started) + {t};
    RestrictAppend(taken, t, Elements(y.started));
    RestrictAppend(taken, t, Elements(y.started + [t]));
    RestrictFrame(taken, Elements(y.started), t);
  }

  function RunOf(t: TaskId, s: Stage): seq<TaskId> {
    if InRun(s) then [t] else []
  }

  /** What an event of one task does to the starts and the runs. */
  predicate Moves(y: Keyed, y': Keyed, t: TaskId, k: Task, k': Task) {
    && k'.starts == k.starts + (if InRun(k'.stage) && !InRun(k.stage) then 1 else 0)
    && (InRun(k'.stage) && !InRun(k.stage) ==> k.starts == 0)
    && y'.started == y.started + (if InRun(k'.stage) && !InRun(k.stage) then [t] else [])
    && (InRun(k.stage) ==> k.stage.Closing? || InRun(k'.stage))
    && (if InRun(k.stage) && !InRun(k'.stage)
        then RunOk(EndedRun(t, k), k') && y'.runs == y.runs + [EndedRun(t, k)]
        else y'.runs == y.runs)
  }

  lemma StartsMoveByClose(y: Keyed, t: TaskId, k: Task)
    requires TaskOk(k) && k.stage.Closing?
    ensures Moves(y, NextKeyed(y, t, k, Close), t, k, Do(k, Close))
  {
    RunKept(k, Close);
  }

  lemma StartsMove(y: Keyed, t: TaskId, k: Task, e: Event)
    requires TaskOk(k) && CanDo(k, e)
    ensures Moves(y, NextKeyed(y, t, k, e), t, k, Do(k, e))
  {
    if e.Close? {
      StartsMoveByClose(y, t, k);
    } else {
      assert y.started + [] == y.started;
    }
  }

  lemma StartOrderKept(y: Keyed, settled: seq<TaskId>, t: TaskId, k: Task, e: Event)
    requires TaskOk(k) && CanDo(k, e) && t !in settled && (t in y.started <==> k.starts > 0)
    requires StartOrder(y, settled + [t], RunOf(t, k.stage))
    ensures StartOrder(NextKeyed(y, t, k, e), settled + [t], RunOf(t, Do(k, e).stage))
  {
    var k', y' := Do(k, e), NextKeyed(y, t, k, e);
    StartsMove(y, t, k, e);
    if InRun(k'.stage) && !InRun(k.stage) {
      StartsBegin(y, settled, t);
    } else if InRun(k.stage) && !InRun(k'.stage) {
      assert RunIds(y'.runs) == RunIds(y.runs) + [t];
    }
  }

  lemma StartCountsKept(y: Keyed, tasks: Tasks, t: TaskId, e: Event)
    requires t in tasks && TaskOk(tasks[t]) && CanDo(tasks[t], e) && StartCounts(y, tasks)
    ensures StartCounts(NextKeyed(y, t, tasks[t], e), tasks[t := Do(tasks[t], e)])
  {
    StartsMove(y, t, tasks[t], e);
    StageMoves(tasks[t], e);
    if IsClosed(tasks[t].stage) {
      ClosedStays(tasks[t], e);
    }
  }

  lemma StartOrderByHeld(w: Worker, a: Action)
    requires Enabled(w, a) && TouchOf(w, a).Touch? && w.chan.held == Some(TouchOf(w, a).t)
    requires StartOrder(w.keyed, TakenSeq(w.chan), RunningSeq(w.tasks, w.chan))
    requires var t := TouchOf(w, a).t;
             TaskOk(w.tasks[t]) && t !in w.chan.settled && (t in w.keyed.started <==> w.tasks[t].starts > 0)
    ensures var w' := Apply(w, a); StartOrder(w'.keyed, TakenSeq(w'.chan), RunningSeq(w'.tasks, w'.chan))
  {
    var x, w' := TouchOf(w, a), Apply(w, a);
    StageMoves(w.tasks[x.t], x.e);
    StartOrderKept(w.keyed, w.chan.settled, x.t, w.tasks[x.t], x.e);
    assert TakenSeq(w'.chan) == TakenSeq(w.chan);
  }

  lemma StartOrderPop(y: Keyed, taken: seq<TaskId>, t: TaskId)
    requires StartOrder(y, taken, []) && t !in y.started
    ensures StartOrder(y, taken + [t], [])
  {
    RestrictAppend(taken, t, Elements(y.started));
  }

  lemma PopMoves(w: Worker, a: Action)
    requires Enabled(w, a) && (a.Recv? || a.DrainRecv?)
    ensures var w' := Apply(w, a);
            && w'.keyed == w.keyed && RunningSeq(w.tasks, w.chan) == [] && RunningSeq(w'.tasks, w'.chan) == []
            && TakenSeq(w'.chan) == TakenSeq(w.chan) + [w.chan.queue[0]]
  {
  }

  lemma StartOrderByPop(w: Worker, a: Action)
    requires Enabled(w, a) && (a.Recv? || a.DrainRecv?)
    requires StartOrder(w.keyed, TakenSeq(w.chan), RunningSeq(w.tasks, w.chan))
    requires w.chan.queue[0] !in w.keyed.started
    ensures var w' := Apply(w, a); StartOrder(w'.keyed, TakenSeq(w'.chan), RunningSeq(w'.tasks, w'.chan))
  {
    PopMoves(w, a);
    StartOrderPop(w.keyed, TakenSeq(w.chan), w.chan.queue[0]);
  }

  lemma StartOrderByCaller(w: Worker, a: Action)
    requires Enabled(w, a) && a.ByHandle?
    requires StartOrder(w.keyed, TakenSeq(w.chan), RunningSeq(w.tasks, w.chan))
    ensures var w' := Apply(w, a); StartOrder(w'.keyed, TakenSeq(w'.chan), RunningSeq(w'.tasks, w'.chan))
  {
    StageMoves(w.tasks[a.t], a.e);
    assert RunningSeq(NextTasks(w, a), w.chan) == RunningSeq(w.tasks, w.chan);
  }

  /** Where the task of an action is, and whether it was started. */
  lemma TouchedPlace(w: Worker, a: Action)
    requires TasksOk(w.tasks) && Ordered(w.chan) && Placed(w.tasks, w.chan) && Enabled(w, a) && TouchOf(w, a).Touch?
    requires StartCounts(w.keyed, w.tasks)
    ensures var t := TouchOf(w, a).t;
            && TaskOk(w.tasks[t]) && (t in w.keyed.started <==> w.tasks[t].starts > 0)
            && (a.Recv? || a.DrainRecv? ==> t !in w.keyed.started)
            && (!a.ByHandle? && !a.Recv? && !a.DrainRecv? ==> w.chan.held == Some(t) && t !in w.chan.settled)
  {
    var t := TouchOf(w, a).t;
    AcceptedParts(w.chan);
    assert InPlace(w.tasks[t], t, w.chan) && TaskOk(w.tasks[t]);
  }

  lemma StartOrderTouched(w: Worker, a: Action)
    requires Enabled(w, a) && TouchOf(w, a).Touch?
    requires StartOrder(w.keyed, TakenSeq(w.chan), RunningSeq(w.tasks, w.chan))
    requires var t := TouchOf(w, a).t;
             && TaskOk(w.tasks[t]) && (t in w.keyed.started <==> w.tasks[t].starts > 0)
             && (a.Recv? || a.DrainRecv? ==> t !in w.keyed.started)
             && (!a.ByHandle? && !a.Recv? && !a.DrainRecv? ==> w.chan.held == Some(t) && t !in w.chan.settled)
    ensures var w' := Apply(w, a); StartOrder(w'.keyed, TakenSeq(w'.chan), RunningSeq(w'.tasks, w'.chan))
  {
    if a.ByHandle? {
      StartOrderByCaller(w, a);
    } else if a.Recv? || a.DrainRecv? {
      StartOrderByPop(w, a);
    } else {
      StartOrderByHeld(w, a);
    }
  }

  lemma StartOrderKeptByTouch(w: Worker, a: Action)
    requires TasksOk(w.tasks) && Ordered(w.chan) && Placed(w.tasks, w.chan) && Enabled(w, a) && TouchOf(w, a).Touch?
    requires StartsOk(w.keyed, w.tasks, w.chan)
    ensures var w' := Apply(w, a); StartOrder(w'.keyed, TakenSeq(w'.chan), RunningSeq(w'.tasks, w'.chan))
  {
    TouchedPlace(w, a);
    StartOrderTouched(w, a);
  }

  lemma StartsUntouched(w: Worker, a: Action)
    requires Ordered(w.chan) && Placed(w.tasks, w.chan) && Enabled(w, a) && TouchOf(w, a).Nothing?
    ensures TakenSeq(NextChannel(w.chan, a)) == TakenSeq(w.chan)
    ensures HeldTask(NextTasks(w, a), NextChannel(w.chan, a)) == HeldTask(w.tasks, w.chan)
    ensures NextChannel(w.chan, a).held == w.chan.held
    ensures StartCounts(w.keyed, w.tasks) ==> StartCounts(w.keyed, NextTasks(w, a))
  {
    assert a.Send? ==> a.t !in w.tasks;
  }

  lemma StartsKept(w: Worker, a: Action)
    requires TasksOk(w.tasks) && Ordered(w.chan) && Placed(w.tasks, w.chan) && Enabled(w, a)
    requires StartsOk(w.keyed, w.tasks, w.chan)
    ensures var w' := Apply(w, a); StartsOk(w'.keyed, w'.tasks, w'.chan)
  {
    var x := TouchOf(w, a);
    if x.Touch? {
      StartOrderKeptByTouch(w, a);
      StartCountsKept(w.keyed, w.tasks, x.t, x.e);
    } else {
      StartsUntouched(w, a);
    }
  }

  // ---------- everything together

  predicate ControlOk(s: Control, c: Channel) {
    && (s.loop.Stopped? <==> !c.open)
    && (s.loop.DrainedOut? || s.loop.Stopped? ==> c.held.None?)
  }

  ghost predicate Inv(w: Worker) {
    && Ordered(w.chan) && Counted(w.chan) && ControlOk(w.ctl, w.chan)
    && TasksOk(w.tasks) && Placed(w.tasks, w.chan)
    && SignalsOk(w.sig, HeldInterrupts(w.tasks, w.chan.held))
    && StatesOk(w.keyed, HeldTask(w.tasks, w.chan))
    && StartsOk(w.keyed, w.tasks, w.chan)
  }

  lemma InvKept(w: Worker, a: Action)
    requires Inv(w) && Enabled(w, a)
    ensures Inv(Apply(w, a))
  {
    OrderKept(w.chan, a);
    CountKept(w.chan, a);
    TasksKept(w, a);
    PlacesKept(w, a);
    SignalsKept(w, a);
    StatesKept(w, a);
    StartsKept(w, a);
  }

  /** Every schedule of a worker keeps the invariant. */
  lemma {:induction false} InvAlways(capacity: nat, acts: seq<Action>)
    requires After(capacity, acts).Some?
    ensures Inv(After(capacity, acts).value)
  {
    if acts != [] {
      InvAlways(capacity, acts[..|acts| - 1]);
      InvKept(After(capacity, acts[..|acts| - 1]).value, acts[|acts| - 1]);
    }
  }

  // ---------- what follows for every schedule

  /** Every task the channel accepted is, in this order, settled, held, queued
      or dropped with the receiver; the counter holds one for each that is not
      settled and for each reservation; a settled task was closed and reported
      exactly once and a task still in the channel was neither. */
  lemma {:induction false} InflightConservation(capacity: nat, acts: seq<Action>)
    requires After(capacity, acts).Some?
    ensures var w := After(capacity, acts).value; var c := w.chan;
            && c.accepted == c.settled + HeldSeq(c) + c.queue + c.stranded && Distinct(c.accepted)
            && c.inflight == |c.reserving| + |HeldSeq(c)| + |c.queue| + |c.stranded|
            && (c.open ==> c.stranded == [])
            && (forall t :: t in c.settled ==> t in w.tasks && w.tasks[t].finishes == 1 && |w.tasks[t].results| == 1)
            && (forall t :: t in c.queue || t in c.stranded ==>
                  t in w.tasks && w.tasks[t].finishes == 0 && w.tasks[t].results == [])
  {
    InvAlways(capacity, acts);
    var w := After(capacity, acts).value;
    AcceptedParts(w.chan);
    assert forall t :: t in w.tasks ==> InPlace(w.tasks[t], t, w.chan) && TaskOk(w.tasks[t]);
  }

  /** The scoped count is what users hold plus one exactly while the claimed task
      has lost to its deadline and its request is not yet released; so between
      tasks, and when the next task is about to be claimed, no earlier timeout
      interrupts the worker. */
  lemma {:induction false} InterruptIsolation(capacity: nat, acts: seq<Action>)
    requires After(capacity, acts).Some?
    ensures var w := After(capacity, acts).value; var s := w.sig; var held := HeldTask(w.tasks, w.chan);
            var lost := held.Some? && ((InRun(held.value.stage) && held.value.caller.Won?)
                                       || (held.value.stage.Releasing? && held.value.stage.guard));
            && s.requests.flag == (s.requests.persistent || s.requests.scoped > 0)
            && s.requests.scoped == s.userGuards + (if lost then 1 else 0)
            && (held.None? || held.value.stage.Taken? ==>
                  s.requests.flag == (s.requests.persistent || s.userGuards > 0))
  {
    InvAlways(capacity, acts);
    var w := After(capacity, acts).value;
    RequestIsTimeout(w.tasks, w.chan);
  }

  lemma RequestIsTimeout(tasks: Tasks, c: Channel)
    requires TasksOk(tasks)
    ensures var held := HeldTask(tasks, c);
            HeldInterrupts(tasks, c.held) <==>
            held.Some? && ((InRun(held.value.stage) && held.value.caller.Won?)
                           || (held.value.stage.Releasing? && held.value.stage.guard))
  {
    if c.held.Some? && c.held.value in tasks {
      assert TaskOk(tasks[c.held.value]);
    }
  }

  /** Each key is a sequential actor: its runs follow the order in which the
      channel accepted its tasks, the first is given no state, each later one
      exactly what the previous one left, and the current one what the last one
      left; a run leaves what its future returned unless a timeout, an abort or a
      panic ended it; a task whose deadline won in the channel never runs. */
  ghost predicate ActorOf(w: Worker, key: Key) {
    var held := HeldTask(w.tasks, w.chan);
    && Chained(OfKey(w.keyed.runs, key))
    && (Running(held) && held.value.key == key ==> GivenTo(held.value.stage) == LastLeft(OfKey(w.keyed.runs, key)))
    && (forall r :: r in w.keyed.runs ==> r.t in w.tasks && RunOk(r, w.tasks[r.t]))
    && RunIds(w.keyed.runs) + RunningSeq(w.tasks, w.chan) == w.keyed.started
    && w.keyed.started == Restrict(w.chan.accepted, Elements(w.keyed.started))
    && (forall t :: t in w.tasks && w.tasks[t].queuedTimeout ==> t !in w.keyed.started)
  }

  lemma {:induction false} ActorFromInv(w: Worker, key: Key)
    requires Inv(w)
    ensures ActorOf(w, key)
  {
    WaitingNotStarted(w.keyed, w.tasks, w.chan);
    StartsInQueueOrder(w.keyed, w.chan);
  }

  lemma {:induction false} KeyedActor(capacity: nat, acts: seq<Action>, key: Key)
    requires After(capacity, acts).Some?
    ensures ActorOf(After(capacity, acts).value, key)
  {
    InvAlways(capacity, acts);
    ActorFromInv(After(capacity, acts).value, key);
  }

  lemma WaitingNotStarted(y: Keyed, tasks: Tasks, c: Channel)
    requires Ordered(c) && TasksOk(tasks) && Placed(tasks, c) && StartCounts(y, tasks)
    ensures forall t :: t in c.queue || t in c.stranded ==> t !in y.started
    ensures forall t :: t in tasks && tasks[t].queuedTimeout ==> t !in y.started
  {
    AcceptedParts(c);
    assert forall t :: t in tasks ==> InPlace(tasks[t], t, c) && TaskOk(tasks[t]);
  }

  lemma StartsInQueueOrder(y: Keyed, c: Channel)
    requires c.accepted == TakenSeq(c) + c.queue + c.stranded
    requires Restrict(TakenSeq(c), Elements(y.started)) == y.started
    requires forall t :: t in c.queue || t in c.stranded ==> t !in y.started
    ensures y.started == Restrict(c.accepted, Elements(y.started))
  {
    var taken, keep := TakenSeq(c), Elements(y.started);
    RestrictTail(taken, c.queue, keep);
    RestrictTail(taken + c.queue, c.stranded, keep);
  }

  lemma {:induction false} RestrictTail(s: seq<TaskId>, rest: seq<TaskId>, keep: set<TaskId>)
    requires forall t :: t in rest ==> t !in keep
    ensures Restrict(s + rest, keep) == Restrict(s, keep)
  {
    if rest == [] {
      assert s + rest == s;
    } else {
      var n := |rest| - 1;
      RestrictTail(s, rest[..n], keep);
      assert s + rest == (s + rest[..n]) + [rest[n]];
      RestrictAppend(s + rest[..n], rest[n], keep);
    }
  }
}
