/** Schedules that show what a worker may do although its documentation reads
    otherwise. */
module Schedules {
  import opened Basics
  import opened Interrupts
  import opened Execution
  import opened TaskLife
  import opened WorkerLoop

  ghost predicate Reached(acts: seq<Action>, w: Worker) {
    After(1, acts) == Some(w)
  }

  /** The action takes one worker to the other. */
  predicate Leads(w: Worker, a: Action, w': Worker) {
    Enabled(w, a) && Apply(w, a) == w'
  }

  lemma Then(acts: seq<Action>, w: Worker, a: Action, w': Worker)
    requires Reached(acts, w) && Leads(w, a, w')
    ensures Reached(acts + [a], w')
  {
    assert (acts + [a])[..|acts|] == acts;
  }

  function First(n: nat): seq<TaskId> {
    if n == 0 then [] else First(n - 1) + [n - 1]
  }

  lemma {:induction false} FirstHas(n: nat)
    ensures forall t :: t in First(n) <==> 0 <= t < n
  {
    if n > 0 {
      FirstHas(n - 1);
    }
  }

  /** A channel that has settled the tasks before `n`, and one that also accepted `n`. */
  function Idle(n: nat): Channel {
    Channel(1, true, false, 0, map[], [], None, First(n), First(n), [])
  }

  function Accepted(n: nat, queue: seq<TaskId>, held: Option<TaskId>): Channel {
    Channel(1, true, false, 1, map[], queue, held, First(n + 1), First(n), [])
  }

  /** A worker in its loop with no interruption requests. */
  function Plain(c: Channel, tasks: Tasks, keyed: Keyed): Worker {
    Worker(c, Control(Looping, false, false), tasks, keyed, Signals(NO_REQUESTS, 0))
  }

  /** The held task in its successive stages. */
  function Held(n: nat, tasks: Tasks, k: Task, keyed: Keyed): Worker {
    Plain(Accepted(n, [], Some(n)), tasks[n := k], keyed)
  }

  function Started(key: Key, given: Option<KeyedState>): Task {
    NewTask(key).(exec := NEW_EXEC.(phase := Starting), stage := Claimed(given), starts := 1)
  }

  function KeyTaken(keyed: Keyed, n: nat, key: Key): Keyed {
    keyed.(states := keyed.states - {key}, started := keyed.started + [n])
  }

  // ---------- starting the next task of an idle worker

  lemma Reserves(n: nat, tasks: Tasks, keyed: Keyed, key: Key)
    ensures Leads(Plain(Idle(n), tasks, keyed), Reserve(n, key),
                  Plain(Idle(n).(inflight := 1, reserving := map[n := key]), tasks, keyed))
  {
    FirstHas(n);
  }

  lemma Sends(n: nat, tasks: Tasks, keyed: Keyed, key: Key)
    ensures Leads(Plain(Idle(n).(inflight := 1, reserving := map[n := key]), tasks, keyed), Action.Send(n),
                  Plain(Accepted(n, [n], None), tasks[n := NewTask(key)], keyed))
  {
    assert map[n := key] - {n} == map[];
  }

  lemma Takes(n: nat, tasks: Tasks, keyed: Keyed, key: Key)
    ensures Leads(Plain(Accepted(n, [n], None), tasks[n := NewTask(key)], keyed), Recv,
                  Held(n, tasks, NewTask(key).(stage := Taken), keyed))
  {
    assert tasks[n := NewTask(key)][n := NewTask(key).(stage := Taken)] == tasks[n := NewTask(key).(stage := Taken)];
  }

  lemma Starts(n: nat, tasks: Tasks, keyed: Keyed, key: Key)
    ensures Leads(Held(n, tasks, NewTask(key).(stage := Taken), keyed), Start,
                  Held(n, tasks, Started(key, Lookup(keyed.states, key)), KeyTaken(keyed, n, key)))
  {
    var k, k' := NewTask(key).(stage := Taken), Started(key, Lookup(keyed.states, key));
    assert tasks[n := k][n := k'] == tasks[n := k'];
  }

  /** It is given the state of its key. */
  lemma StartNext(acts: seq<Action>, n: nat, tasks: Tasks, keyed: Keyed, key: Key) returns (acts': seq<Action>)
    requires Reached(acts, Plain(Idle(n), tasks, keyed))
    ensures Reached(acts', Held(n, tasks, Started(key, Lookup(keyed.states, key)), KeyTaken(keyed, n, key)))
  {
    Reserves(n, tasks, keyed, key);
    Then(acts, Plain(Idle(n), tasks, keyed), Reserve(n, key),
         Plain(Idle(n).(inflight := 1, reserving := map[n := key]), tasks, keyed));
    acts' := acts + [Reserve(n, key)];
    Sends(n, tasks, keyed, key);
    Then(acts', Plain(Idle(n).(inflight := 1, reserving := map[n := key]), tasks, keyed), Action.Send(n),
         Plain(Accepted(n, [n], None), tasks[n := NewTask(key)], keyed));
    acts' := acts' + [Action.Send(n)];
    Takes(n, tasks, keyed, key);
    Then(acts', Plain(Accepted(n, [n], None), tasks[n := NewTask(key)], keyed), Recv,
         Held(n, tasks, NewTask(key).(stage := Taken), keyed));
    acts' := acts' + [Recv];
    Starts(n, tasks, keyed, key);
    Then(acts', Held(n, tasks, NewTask(key).(stage := Taken), keyed), Start,
         Held(n, tasks, Started(key, Lookup(keyed.states, key)), KeyTaken(keyed, n, key)));
    acts' := acts' + [Start];
  }

  // ---------- a run that completes

  lemma Advances(n: nat, tasks: Tasks, k: Task, keyed: Keyed, e: Event)
    requires CanDo(k, e) && (e.Install? || e.Join? || e.Reply?)
    ensures Leads(Held(n, tasks, k, keyed), Advance(e), Held(n, tasks, Do(k, e), keyed))
  {
    assert tasks[n := k][n := Do(k, e)] == tasks[n := Do(k, e)];
  }

  lemma Finalizes(n: nat, tasks: Tasks, k: Task, keyed: Keyed)
    requires CanDo(k, Close)
    ensures Leads(Held(n, tasks, k, keyed), Finalize, Held(n, tasks, Do(k, Close), NextKeyed(keyed, n, k, Close)))
  {
    assert tasks[n := k][n := Do(k, Close)] == tasks[n := Do(k, Close)];
  }

  lemma Releases(n: nat, tasks: Tasks, k: Task, keyed: Keyed)
    requires CanDo(k, Release) && !k.stage.guard
    ensures Leads(Held(n, tasks, k, keyed), ReleaseGuard, Held(n, tasks, Do(k, Release), keyed))
  {
    assert tasks[n := k][n := Do(k, Release)] == tasks[n := Do(k, Release)];
  }

  lemma Settles(n: nat, tasks: Tasks, k: Task, keyed: Keyed)
    requires CanDo(k, Settle)
    ensures Leads(Held(n, tasks, k, keyed), Decrement, Plain(Idle(n + 1), tasks[n := Do(k, Settle)], keyed))
  {
    assert tasks[n := k][n := Do(k, Settle)] == tasks[n := Do(k, Settle)];
  }

  /** The stages of a started task whose future returns. */
  function Joined(key: Key, given: Option<KeyedState>, value: Returned, next: Option<KeyedState>): Task {
    var outcome := Completed(value, next);
    Started(key, given).(exec := Exec(Running, true, None, false), outcome := Some(outcome),
                         stage := Closing(Ended(given, outcome)))
  }

  function Closed(key: Key, given: Option<KeyedState>, value: Returned, next: Option<KeyedState>): Task {
    Joined(key, given, value, next).(exec := Exec(Finished, false, None, false), finishes := 1,
                                     stage := Releasing(false, Value(value)))
  }

  lemma TaskReturns(key: Key, given: Option<KeyedState>, value: Returned, next: Option<KeyedState>)
    ensures var k := Started(key, given);
            CanDo(k, Install) && CanDo(Do(k, Install), Join(Completed(value, next)))
            && Do(Do(k, Install), Join(Completed(value, next))) == Joined(key, given, value, next)
    ensures CanDo(Joined(key, given, value, next), Close)
    ensures Do(Joined(key, given, value, next), Close) == Closed(key, given, value, next)
  {
  }

  /** The future of the started task returns, with whatever value. */
  lemma RunReturns(acts: seq<Action>, n: nat, tasks: Tasks, keyed: Keyed, key: Key, given: Option<KeyedState>,
                   value: Returned, next: Option<KeyedState>) returns (acts': seq<Action>)
    requires Reached(acts, Held(n, tasks, Started(key, given), keyed))
    ensures Reached(acts', Held(n, tasks, Closed(key, given, value, next),
                                NextKeyed(keyed, n, Joined(key, given, value, next), Close)))
  {
    var k, outcome := Started(key, given), Completed(value, next);
    var k1, k2 := Do(k, Install), Joined(key, given, value, next);
    TaskReturns(key, given, value, next);
    Advances(n, tasks, k, keyed, Install);
    Then(acts, Held(n, tasks, k, keyed), Advance(Install), Held(n, tasks, k1, keyed));
    acts' := acts + [Advance(Install)];
    Advances(n, tasks, k1, keyed, Join(outcome));
    Then(acts', Held(n, tasks, k1, keyed), Advance(Join(outcome)), Held(n, tasks, k2, keyed));
    acts' := acts' + [Advance(Join(outcome))];
    Finalizes(n, tasks, k2, keyed);
    Then(acts', Held(n, tasks, k2, keyed), Finalize,
         Held(n, tasks, Closed(key, given, value, next), NextKeyed(keyed, n, k2, Close)));
    acts' := acts' + [Finalize];
  }

  /** The worker releases, reports and settles a closed task. */
  lemma RunSettles(acts: seq<Action>, n: nat, tasks: Tasks, k: Task, keyed: Keyed)
    returns (acts': seq<Action>, tasks': Tasks)
    requires Reached(acts, Held(n, tasks, k, keyed)) && k.stage.Releasing? && !k.stage.guard
    ensures Reached(acts', Plain(Idle(n + 1), tasks', keyed))
    ensures n in tasks' && tasks'[n].outcome == k.outcome
  {
    var k1 := Do(k, Release);
    var k2 := Do(k1, Reply);
    Releases(n, tasks, k, keyed);
    Then(acts, Held(n, tasks, k, keyed), ReleaseGuard, Held(n, tasks, k1, keyed));
    acts' := acts + [ReleaseGuard];
    Advances(n, tasks, k1, keyed, Reply);
    Then(acts', Held(n, tasks, k1, keyed), Advance(Reply), Held(n, tasks, k2, keyed));
    acts' := acts' + [Advance(Reply)];
    Settles(n, tasks, k2, keyed);
    tasks' := tasks[n := Do(k2, Settle)];
    Then(acts', Held(n, tasks, k2, keyed), Decrement, Plain(Idle(n + 1), tasks', keyed));
    acts' := acts' + [Decrement];
  }

  /** A task that returned an error hands its state on all the same: for every
      error and state there is a schedule in which the next task of the key is
      given the state. */
  lemma ErrorHandsStateOn(key: Key, error: int, state: KeyedState) returns (acts: seq<Action>, w: Worker)
    ensures After(1, acts) == Some(w) && w.chan.held == Some(1) && 1 in w.tasks
    ensures w.tasks[1].key == key && w.tasks[1].stage == Claimed(Some(state))
    ensures w.keyed.runs == [Run(0, key, None, Some(state))]
    ensures 0 in w.tasks && w.tasks[0].outcome == Some(Completed(Error(error), Some(state)))
  {
    var empty := Keyed(map[], [], []);
    acts := StartNext([], 0, map[], empty, key);
    var keyed := KeyTaken(empty, 0, key);
    acts := RunReturns(acts, 0, map[], keyed, key, None, Error(error), Some(state));
    var k := Closed(key, None, Error(error), Some(state));
    keyed := NextKeyed(keyed, 0, Joined(key, None, Error(error), Some(state)), Close);
    var tasks;
    acts, tasks := RunSettles(acts, 0, map[], k, keyed);
    assert keyed.states[key] == state;
    acts := StartNext(acts, 1, tasks, keyed, key);
    w := Held(1, tasks, Started(key, Some(state)), KeyTaken(keyed, 1, key));
  }
}
