/** Task scopes of one context: promises belong to the scope that was current
    when they were made, and cancelling a scope silences them for good. */
module Scopes {
  import opened Basics
  import TaskLists

  type List = TaskLists.List

  /** Shared by the registry and by every task made in the scope. */
  datatype Scope = Scope(cancelled: bool, list: List)

  /** Between polls, inside the poll of its future, converting its result after
      the second look at the scope, or finished. */
  datatype Phase = Parked | Polling | Settling | Done

  /** The task that drives one promise. */
  datatype Task = Task(scope: Option<nat>, phase: Phase, aborted: bool, settled: bool)

  type Tasks = map<nat, Task>

  /** `scopes` holds every scope ever begun, `registered` the ones not cancelled. */
  datatype Registry = Registry(nextId: nat, closed: bool, current: Option<nat>, registered: set<nat>,
                               scopes: map<nat, Scope>, list: List)

  datatype Host = Host(reg: Registry, tasks: Tasks)

  const NEW_HOST := Host(Registry(0, false, None, {}, map[], TaskLists.NO_TASKS), map[])

  // ---------- steps

  /** Host code may take any of these at any moment, also inside a poll.
      `Elsewhere` is another context taking scope numbers. An aborted task may
      still be polled: nothing here rests on how soon the executor drops it. */
  datatype Action =
    | Begin
    | Elsewhere(count: nat)
    | Enter(next: Option<nat>)
    | Cancel(scope: nat)
    | NewPromise(task: nat)
    | StartPoll(task: nat)
    | EndPoll(task: nat, ready: bool)
    | Settle(task: nat)
    | DropAborted(task: nat)
    | AbortAll

  function Finished(tasks: Tasks): set<nat> {
    set t | t in tasks && tasks[t].phase.Done?
  }

  /** Asks the executor to drop the tasks; a poll already running goes on. */
  function Abort(tasks: Tasks, handles: seq<nat>): Tasks {
    map t | t in tasks :: if t in handles && !tasks[t].phase.Done? then tasks[t].(aborted := true) else tasks[t]
  }

  predicate IsCancelled(scopes: map<nat, Scope>, scope: Option<nat>) {
    scope.Some? && scope.value in scopes && scopes[scope.value].cancelled
  }

  predicate Can(h: Host, a: Action) {
    match a
    case NewPromise(t) => t !in h.tasks
    case StartPoll(t) => t in h.tasks && h.tasks[t].phase.Parked?
    case EndPoll(t, _) => t in h.tasks && h.tasks[t].phase.Polling?
    case Settle(t) => t in h.tasks && h.tasks[t].phase.Settling?
    case DropAborted(t) => t in h.tasks && h.tasks[t].phase.Parked? && h.tasks[t].aborted
    case _ => true
  }

  function NextTask(task: Task, cancelled: bool, a: Action): Task {
    match a
    case StartPoll(_) => task.(phase := if cancelled then Done else Polling)
    case EndPoll(_, ready) =>
      if cancelled then task.(phase := Done)
      else task.(phase := if ready then Settling else Parked)
    case Settle(_) => task.(phase := Done, settled := true)
    case DropAborted(_) => task.(phase := Done)
    case _ => task
  }

  function Adopt(reg: Registry, t: nat, finished: set<nat>): Registry {
    var reg := reg.(list := TaskLists.Push(reg.list, t, finished));
    if reg.current.Some? && reg.current.value in reg.scopes then
      var scope := reg.scopes[reg.current.value];
      reg.(scopes := reg.scopes[reg.current.value := scope.(list := TaskLists.Push(scope.list, t, finished))])
    else reg
  }

  function Do(h: Host, a: Action): Host
    requires Can(h, a)
  {
    var reg := h.reg;
    match a
    case Begin =>
      h.(reg := reg.(nextId := reg.nextId + 1, registered := reg.registered + {reg.nextId},
                     scopes := reg.scopes[reg.nextId := Scope(false, TaskLists.NO_TASKS)], current := Some(reg.nextId)))
    case Elsewhere(count) => h.(reg := reg.(nextId := reg.nextId + count))
    case Enter(next) =>
      h.(reg := reg.(current := if next.Some? && next.value in reg.registered then next else None))
    case Cancel(id) =>
      if id !in reg.registered || id !in reg.scopes then h
      else
        Host(reg.(registered := reg.registered - {id}, current := if reg.current == Some(id) then None else reg.current,
                  scopes := reg.scopes[id := Scope(true, reg.scopes[id].list.(handles := []))]),
             Abort(h.tasks, reg.scopes[id].list.handles))
    case NewPromise(t) =>
      if reg.closed then h
      else Host(Adopt(reg, t, Finished(h.tasks)), h.tasks[t := Task(reg.current, Parked, false, false)])
    case AbortAll =>
      Host(reg.(closed := true, list := reg.list.(handles := [])), Abort(h.tasks, reg.list.handles))
    case _ =>
      var t := a.task;
      h.(tasks := h.tasks[t := NextTask(h.tasks[t], IsCancelled(reg.scopes, h.tasks[t].scope), a)])
  }

  predicate CanRun(acts: seq<Action>)
    decreases |acts|, 0
  {
    acts != [] ==> CanRun(acts[..|acts| - 1]) && Can(After(acts[..|acts| - 1]), acts[|acts| - 1])
  }

  function After(acts: seq<Action>): Host
    requires CanRun(acts)
    decreases |acts|, 1
  {
    if acts == [] then NEW_HOST else Do(After(acts[..|acts| - 1]), acts[|acts| - 1])
  }

  // ---------- what every step keeps

  /** The registered scopes are the uncancelled ones, the current one is among
      them, and numbers still to come are new. */
  predicate RegistryOk(reg: Registry) {
    && (reg.current.Some? ==> reg.current.value in reg.registered)
    && reg.registered <= reg.scopes.Keys
    && (forall id :: id in reg.scopes ==> id < reg.nextId)
    && (forall id :: id in reg.scopes ==> (id in reg.registered <==> !reg.scopes[id].cancelled))
  }

  /** An unfinished task of a scope is in the list of the scope, or the scope is
      cancelled and the task aborted; the same holds of the context's list. */
  predicate TaskHeld(t: nat, task: Task, reg: Registry) {
    && (task.scope.Some? ==> task.scope.value in reg.scopes)
    && (task.settled ==> task.phase.Done?)
    && (!task.phase.Done? ==> task.aborted || (!reg.closed && t in reg.list.handles))
    && (!task.phase.Done? && task.scope.Some? ==>
          var scope := reg.scopes[task.scope.value];
          if scope.cancelled then task.aborted else t in scope.list.handles)
  }

  predicate HostOk(h: Host) {
    RegistryOk(h.reg) && forall t :: t in h.tasks ==> TaskHeld(t, h.tasks[t], h.reg)
  }

  lemma PushKeeps(l: List, t: nat, finished: set<nat>)
    ensures t in TaskLists.Push(l, t, finished).handles
    ensures forall h :: h in l.handles && h !in finished ==> h in TaskLists.Push(l, t, finished).handles
  {
    TaskLists.UnfinishedMembers(l.handles, finished);
  }

  lemma CancelKept(h: Host, id: nat)
    requires HostOk(h)
    ensures HostOk(Do(h, Cancel(id)))
  {
    var h' := Do(h, Cancel(id));
    forall t | t in h'.tasks
      ensures TaskHeld(t, h'.tasks[t], h'.reg)
    {
      assert TaskHeld(t, h.tasks[t], h.reg);
    }
  }

  lemma AbortAllKept(h: Host)
    requires HostOk(h)
    ensures HostOk(Do(h, AbortAll))
  {
    var h' := Do(h, AbortAll);
    forall t | t in h'.tasks
      ensures TaskHeld(t, h'.tasks[t], h'.reg)
    {
      assert TaskHeld(t, h.tasks[t], h.reg);
    }
  }

  lemma NewPromiseKept(h: Host, n: nat)
    requires HostOk(h) && n !in h.tasks
    ensures HostOk(Do(h, NewPromise(n)))
  {
    var h', done := Do(h, NewPromise(n)), Finished(h.tasks);
    PushKeeps(h.reg.list, n, done);
    if h.reg.current.Some? {
      PushKeeps(h.reg.scopes[h.reg.current.value].list, n, done);
    }
    forall t | t in h'.tasks
      ensures TaskHeld(t, h'.tasks[t], h'.reg)
    {
      if t != n {
        assert TaskHeld(t, h.tasks[t], h.reg);
      }
    }
  }

  lemma TaskStepKept(h: Host, a: Action)
    requires HostOk(h) && Can(h, a) && (a.StartPoll? || a.EndPoll? || a.Settle? || a.DropAborted?)
    ensures HostOk(Do(h, a))
  {
    var h' := Do(h, a);
    forall t | t in h'.tasks
      ensures TaskHeld(t, h'.tasks[t], h'.reg)
    {
      assert TaskHeld(t, h.tasks[t], h.reg);
    }
  }

  lemma BeginKept(h: Host)
    requires HostOk(h)
    ensures HostOk(Do(h, Begin))
  {
    var h' := Do(h, Begin);
    forall t | t in h'.tasks
      ensures TaskHeld(t, h'.tasks[t], h'.reg)
    {
      assert TaskHeld(t, h.tasks[t], h.reg);
    }
  }

  lemma StepKept(h: Host, a: Action)
    requires HostOk(h) && Can(h, a)
    ensures HostOk(Do(h, a))
  {
    match a {
      case Begin => BeginKept(h);
      case Elsewhere(_) =>
        var h' := Do(h, a);
        assert forall t :: t in h'.tasks ==> TaskHeld(t, h.tasks[t], h.reg);
      case Enter(_) =>
        var h' := Do(h, a);
        assert forall t :: t in h'.tasks ==> TaskHeld(t, h.tasks[t], h.reg);
      case Cancel(id) => CancelKept(h, id);
      case NewPromise(t) => NewPromiseKept(h, t);
      case AbortAll => AbortAllKept(h);
      case _ => TaskStepKept(h, a);
    }
  }

  /** In every run the current scope is registered and not cancelled, and every
      unfinished promise of a scope is in its list or already aborted. */
  lemma {:induction false} ScopesAlways(acts: seq<Action>)
    requires CanRun(acts)
    ensures HostOk(After(acts))
  {
    if acts != [] {
      ScopesAlways(acts[..|acts| - 1]);
      StepKept(After(acts[..|acts| - 1]), acts[|acts| - 1]);
    }
  }

  // ---------- silence

  /** Past the second look at its scope: it settles, or has settled. */
  predicate Decided(task: Task) {
    task.settled || task.phase.Settling?
  }

  /** A step keeps a cancelled scope cancelled and decides none of its promises. */
  lemma SilentStep(h: Host, a: Action, id: nat)
    requires HostOk(h) && Can(h, a) && id in h.reg.scopes && h.reg.scopes[id].cancelled
    ensures id in Do(h, a).reg.scopes && Do(h, a).reg.scopes[id].cancelled
    ensures forall t :: t in Do(h, a).tasks && Do(h, a).tasks[t].scope == Some(id) && Decided(Do(h, a).tasks[t]) ==>
              t in h.tasks && h.tasks[t].scope == Some(id) && Decided(h.tasks[t])
  {
    if a.NewPromise? && !h.reg.closed {
      assert h.reg.current != Some(id);
    }
  }

  lemma {:induction false} StillCancelled(acts: seq<Action>, n: nat, id: nat)
    requires CanRun(acts) && n <= |acts| && CanRun(acts[..n])
    requires id in After(acts[..n]).reg.scopes && After(acts[..n]).reg.scopes[id].cancelled
    ensures id in After(acts).reg.scopes && After(acts).reg.scopes[id].cancelled
  {
    if n == |acts| {
      assert acts[..n] == acts;
    } else {
      var rest := acts[..|acts| - 1];
      assert rest[..n] == acts[..n];
      StillCancelled(rest, n, id);
      ScopesAlways(rest);
      SilentStep(After(rest), acts[|acts| - 1], id);
    }
  }

  /** Once a scope is cancelled, no promise of it is resolved or rejected in any
      later step, be the cancel inside the poll of its future or not, unless its
      task was already past the second look and converting the result. */
  lemma {:induction false} CancelledScopesStaySilent(acts: seq<Action>, n: nat, id: nat, t: nat)
    requires CanRun(acts) && n <= |acts| && CanRun(acts[..n])
    requires id in After(acts[..n]).reg.scopes && After(acts[..n]).reg.scopes[id].cancelled
    requires t in After(acts).tasks && After(acts).tasks[t].scope == Some(id) && Decided(After(acts).tasks[t])
    ensures t in After(acts[..n]).tasks && Decided(After(acts[..n]).tasks[t])
  {
    if n == |acts| {
      assert acts[..n] == acts;
    } else {
      var rest := acts[..|acts| - 1];
      assert rest[..n] == acts[..n];
      StillCancelled(rest, n, id);
      ScopesAlways(rest);
      SilentStep(After(rest), acts[|acts| - 1], id);
      CancelledScopesStaySilent(rest, n, id, t);
    }
  }

  /** A promise whose result is being converted settles whatever was cancelled. */
  lemma ConvertingStillSettles(acts: seq<Action>, t: nat)
    requires CanRun(acts) && t in After(acts).tasks && After(acts).tasks[t].phase.Settling?
    ensures CanRun(acts + [Settle(t)]) && After(acts + [Settle(t)]).tasks[t].settled
  {
    assert (acts + [Settle(t)])[..|acts|] == acts;
  }

  lemma RunOne(acts: seq<Action>, a: Action)
    requires CanRun(acts) && Can(After(acts), a)
    ensures CanRun(acts + [a]) && After(acts + [a]) == Do(After(acts), a)
  {
    assert (acts + [a])[..|acts|] == acts;
  }

  /** So a conversion that cancels the scope of its own promise does not stop the
      promise: here is such a run. */
  lemma CancelWhileConverting() returns (acts: seq<Action>)
    ensures CanRun(acts) && 0 in After(acts).reg.scopes && After(acts).reg.scopes[0].cancelled
    ensures 0 in After(acts).tasks && After(acts).tasks[0].scope == Some(0)
    ensures !After(acts).tasks[0].settled && After(acts).tasks[0].phase.Settling?
    ensures CanRun(acts + [Settle(0)]) && After(acts + [Settle(0)]).tasks[0].settled
  {
    acts := [];
    RunOne(acts, Begin);
    acts := acts + [Begin];
    RunOne(acts, NewPromise(0));
    acts := acts + [NewPromise(0)];
    RunOne(acts, StartPoll(0));
    acts := acts + [StartPoll(0)];
    RunOne(acts, EndPoll(0, true));
    acts := acts + [EndPoll(0, true)];
    RunOne(acts, Cancel(0));
    acts := acts + [Cancel(0)];
    ConvertingStillSettles(acts, 0);
  }

  /** Cancelling a scope has asked for every unfinished promise of it to be
      dropped, and closing the context for every unfinished promise. */
  lemma {:induction false} AbortsReachAll(acts: seq<Action>, t: nat)
    requires CanRun(acts) && t in After(acts).tasks && !After(acts).tasks[t].phase.Done?
    requires After(acts).reg.closed || IsCancelled(After(acts).reg.scopes, After(acts).tasks[t].scope)
    ensures After(acts).tasks[t].aborted
  {
    ScopesAlways(acts);
    assert TaskHeld(t, After(acts).tasks[t], After(acts).reg);
  }

  // ---------- what a future may do while it is polled

  predicate HostCode(a: Action) {
    a.Begin? || a.Enter? || a.Cancel? || a.NewPromise? || a.AbortAll?
  }

  predicate CanAll(h: Host, acts: seq<Action>)
    decreases |acts|, 0
  {
    acts != [] ==>
      && CanAll(h, acts[..|acts| - 1])
      && HostCode(acts[|acts| - 1]) && Can(DoAll(h, acts[..|acts| - 1]), acts[|acts| - 1])
  }

  function DoAll(h: Host, acts: seq<Action>): Host
    requires CanAll(h, acts)
    decreases |acts|, 1
  {
    if acts == [] then h else Do(DoAll(h, acts[..|acts| - 1]), acts[|acts| - 1])
  }

  lemma {:induction false} CanSome(h: Host, acts: seq<Action>, n: nat)
    requires CanAll(h, acts) && n <= |acts|
    ensures CanAll(h, acts[..n])
  {
    if n == |acts| {
      assert acts[..n] == acts;
    } else {
      assert acts[..|acts| - 1][..n] == acts[..n];
      CanSome(h, acts[..|acts| - 1], n);
    }
  }

  lemma {:induction false} HostCodeKeeps(h: Host, acts: seq<Action>, t: nat)
    requires HostOk(h) && CanAll(h, acts) && t in h.tasks
    ensures HostOk(DoAll(h, acts)) && t in DoAll(h, acts).tasks
    ensures DoAll(h, acts).tasks[t].phase == h.tasks[t].phase && DoAll(h, acts).tasks[t].scope == h.tasks[t].scope
  {
    if acts != [] {
      HostCodeKeeps(h, acts[..|acts| - 1], t);
      StepKept(DoAll(h, acts[..|acts| - 1]), acts[|acts| - 1]);
    }
  }

  // ---------- the registry updated in place

  class TaskRegistry {
    var nextId: nat
    var closed: bool
    var current: Option<nat>
    var registered: set<nat>
    var scopes: map<nat, Scope>
    var list: List
    var tasks: Tasks

    ghost function View(): Host
      reads this
    {
      Host(Registry(nextId, closed, current, registered, scopes, list), tasks)
    }

    constructor ()
      ensures View() == NEW_HOST
    {
      nextId, closed, current, registered, scopes := 0, false, None, {}, map[];
      list, tasks := TaskLists.NO_TASKS, map[];
    }

    method BeginScope() returns (scope: nat)
      modifies this
      ensures View() == Do(old(View()), Begin) && current == Some(scope) && scope == old(nextId)
      ensures registered == old(registered) + {scope} && scope in scopes && !scopes[scope].cancelled
    {
      scope := nextId;
      nextId := nextId + 1;
      scopes, registered := scopes[scope := Scope(false, TaskLists.NO_TASKS)], registered + {scope};
      current := Some(scope);
    }

    /** Makes a registered scope current; any other leaves none. */
    method EnterScope(scope: Option<nat>) returns (previous: Option<nat>)
      modifies this
      ensures View() == Do(old(View()), Enter(scope)) && previous == old(current)
      ensures current == if scope.Some? && scope.value in old(registered) then scope else None
    {
      previous := current;
      if scope.Some? && scope.value in registered {
        current := scope;
      } else {
        current := None;
      }
    }

    method AbortEach(handles: seq<nat>)
      modifies this`tasks
      ensures tasks == Abort(old(tasks), handles)
    {
      for i := 0 to |handles|
        invariant tasks == Abort(old(tasks), handles[..i])
      {
        var t := handles[i];
        if t in tasks && !tasks[t].phase.Done? {
          tasks := tasks[t := tasks[t].(aborted := true)];
        }
      }
      assert handles[..|handles|] == handles;
    }

    method CancelScope(scope: nat) returns (existed: bool)
      requires HostOk(View())
      modifies this
      ensures View() == Do(old(View()), Cancel(scope))
      ensures existed <==> scope in old(registered)
      ensures scope !in registered && current != Some(scope) && (existed ==> scopes[scope].cancelled)
    {
      if scope !in registered {
        return false;
      }
      registered := registered - {scope};
      var handles := scopes[scope].list.handles;
      scopes := scopes[scope := Scope(true, scopes[scope].list.(handles := []))];
      AbortEach(handles);
      if current == Some(scope) {
        current := None;
      }
      return true;
    }

    /** A promise made from a future: its task joins the context's list and the
        list of the current scope. */
    method FromFuture(t: nat) returns (spawned: bool)
      requires HostOk(View()) && t !in tasks
      modifies this
      ensures View() == Do(old(View()), NewPromise(t)) && spawned == !closed
    {
      var scope := current;
      if closed {
        return false;
      }
      var done := Finished(tasks);
      tasks := tasks[t := Task(scope, Parked, false, false)];
      list := TaskLists.Push(list, t, done);
      if scope.Some? {
        var state := scopes[scope.value];
        scopes := scopes[scope.value := state.(list := TaskLists.Push(state.list, t, done))];
      }
      return true;
    }

    method AbortEverything()
      modifies this
      ensures View() == Do(old(View()), AbortAll)
    {
      closed := true;
      var handles := list.handles;
      list := list.(handles := []);
      AbortEach(handles);
    }

    method Perform(a: Action)
      requires HostOk(View()) && HostCode(a) && Can(View(), a)
      modifies this
      ensures View() == Do(old(View()), a)
    {
      match a {
        case Begin => var _ := BeginScope();
        case Enter(next) => var _ := EnterScope(next);
        case Cancel(scope) => var _ := CancelScope(scope);
        case NewPromise(t) => var _ := FromFuture(t);
        case AbortAll => AbortEverything();
      }
    }

    method PerformAll(acts: seq<Action>)
      requires HostOk(View()) && CanAll(View(), acts)
      modifies this
      ensures View() == DoAll(old(View()), acts)
    {
      ghost var first := View();
      for i := 0 to |acts|
        invariant CanAll(first, acts[..i]) && View() == DoAll(first, acts[..i]) && HostOk(View())
      {
        CanSome(first, acts, i + 1);
        assert acts[..i + 1][..i] == acts[..i];
        StepKept(View(), acts[i]);
        Perform(acts[i]);
      }
      assert acts[..|acts|] == acts;
    }

    /** The poll of a promise's future. It does `inside` while it is polled, which
        may cancel the scope of the very promise; true if the result is to be
        converted. */
    method PollFuture(t: nat, inside: seq<Action>, ready: bool) returns (converts: bool)
      requires HostOk(View()) && Can(View(), StartPoll(t)) && CanAll(Do(View(), StartPoll(t)), inside)
      modifies this
      ensures HostOk(View()) && (converts <==> t in tasks && tasks[t].phase.Settling?)
      ensures IsCancelled(old(scopes), old(tasks)[t].scope) ==> View() == Do(old(View()), StartPoll(t))
      ensures !IsCancelled(old(scopes), old(tasks)[t].scope) ==>
                var polled := DoAll(Do(old(View()), StartPoll(t)), inside);
                Can(polled, EndPoll(t, ready)) && View() == Do(polled, EndPoll(t, ready))
    {
      assert TaskHeld(t, tasks[t], View().reg);
      StepKept(View(), StartPoll(t));
      var scope := tasks[t].scope;
      if scope.Some? && scopes[scope.value].cancelled {
        tasks := tasks[t := tasks[t].(phase := Done)];
        return false;
      }
      tasks := tasks[t := tasks[t].(phase := Polling)];
      HostCodeKeeps(View(), inside, t);
      PerformAll(inside);
      assert TaskHeld(t, tasks[t], View().reg);
      StepKept(View(), EndPoll(t, ready));
      converts := false;
      if scope.Some? && scopes[scope.value].cancelled {
        tasks := tasks[t := tasks[t].(phase := Done)];
      } else if ready {
        tasks := tasks[t := tasks[t].(phase := Settling)];
        converts := true;
      } else {
        tasks := tasks[t := tasks[t].(phase := Parked)];
      }
    }

    /** The conversion of the result does `inside`, and then the promise settles. */
    method Convert(t: nat, inside: seq<Action>)
      requires HostOk(View()) && Can(View(), Settle(t)) && CanAll(View(), inside)
      modifies this
      ensures HostOk(View()) && Can(DoAll(old(View()), inside), Settle(t))
      ensures View() == Do(DoAll(old(View()), inside), Settle(t))
    {
      HostCodeKeeps(View(), inside, t);
      PerformAll(inside);
      StepKept(View(), Settle(t));
      tasks := tasks[t := tasks[t].(phase := Done, settled := true)];
    }
  }
}
