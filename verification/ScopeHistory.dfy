/** The scopes of a context read off the actions themselves: which are open, which
    is current, and which one a promise belongs to. */
module ScopeHistory {
  import opened Basics
  import opened Scopes

  /** The number the next scope gets: every scope begun here or elsewhere took one. */
  function NextNumber(acts: seq<Action>): nat {
    if acts == [] then 0
    else
      NextNumber(acts[..|acts| - 1]) +
      match acts[|acts| - 1]
      case Begin => 1
      case Elsewhere(count) => count
      case _ => 0
  }

  /** The scope was begun and has not been cancelled since. */
  predicate Open(acts: seq<Action>, id: nat) {
    acts != [] &&
    var rest := acts[..|acts| - 1];
    match acts[|acts| - 1]
    case Begin => id == NextNumber(rest) || Open(rest, id)
    case Cancel(scope) => scope != id && Open(rest, id)
    case _ => Open(rest, id)
  }

  predicate Begun(acts: seq<Action>, id: nat) {
    exists i :: 0 <= i < |acts| && acts[i].Begin? && NextNumber(acts[..i]) == id
  }

  /** The scope begun or entered last, if it was open then and is still. */
  function Current(acts: seq<Action>): Option<nat> {
    if acts == [] then None
    else
      var rest := acts[..|acts| - 1];
      match acts[|acts| - 1]
      case Begin => Some(NextNumber(rest))
      case Enter(next) => if next.Some? && Open(rest, next.value) then next else None
      case Cancel(scope) => if Current(rest) == Some(scope) then None else Current(rest)
      case _ => Current(rest)
  }

  predicate Closed(acts: seq<Action>) {
    AbortAll in acts
  }

  // ---------- the registry is what the actions say

  ghost predicate Told(acts: seq<Action>, reg: Registry) {
    && reg.nextId == NextNumber(acts) && reg.current == Current(acts) && reg.closed == Closed(acts)
    && (forall id :: id in reg.registered <==> Open(acts, id))
  }

  /** What an action does to the registry, apart from the lists. */
  lemma RegistryStep(h: Host, a: Action)
    requires HostOk(h) && Can(h, a)
    ensures var reg, reg' := h.reg, Do(h, a).reg;
            && reg'.nextId == (if a.Begin? then reg.nextId + 1
                               else if a.Elsewhere? then reg.nextId + a.count else reg.nextId)
            && reg'.closed == (reg.closed || a.AbortAll?)
            && reg'.registered == (if a.Begin? then reg.registered + {reg.nextId}
                                   else if a.Cancel? then reg.registered - {a.scope} else reg.registered)
            && reg'.current ==
               match a
               case Begin => Some(reg.nextId)
               case Enter(next) => if next.Some? && next.value in reg.registered then next else None
               case Cancel(scope) => if reg.current == Some(scope) then None else reg.current
               case _ => reg.current
  {}

  lemma {:induction false} RegistryTold(acts: seq<Action>)
    requires CanRun(acts)
    ensures Told(acts, After(acts).reg)
  {
    if acts != [] {
      var rest, a := acts[..|acts| - 1], acts[|acts| - 1];
      RegistryTold(rest);
      ScopesAlways(rest);
      RegistryStep(After(rest), a);
      assert acts == rest + [a];
    }
  }

  lemma {:induction false} BegunPush(acts: seq<Action>, id: nat)
    requires acts != []
    ensures Begun(acts, id) <==>
              || Begun(acts[..|acts| - 1], id)
              || (acts[|acts| - 1].Begin? && NextNumber(acts[..|acts| - 1]) == id)
  {
    var rest := acts[..|acts| - 1];
    assert forall i :: 0 <= i < |rest| ==> rest[..i] == acts[..i] && rest[i] == acts[i];
    if Begun(rest, id) {
      var i :| 0 <= i < |rest| && rest[i].Begin? && NextNumber(rest[..i]) == id;
      assert acts[i].Begin? && NextNumber(acts[..i]) == id;
    }
  }

  lemma ScopesStep(h: Host, a: Action, id: nat)
    requires HostOk(h) && Can(h, a)
    ensures id in Do(h, a).reg.scopes <==> id in h.reg.scopes || (a.Begin? && id == h.reg.nextId)
  {}

  lemma {:induction false} ScopesBegun(acts: seq<Action>, id: nat)
    requires CanRun(acts)
    ensures id in After(acts).reg.scopes <==> Begun(acts, id)
  {
    if acts != [] {
      var rest := acts[..|acts| - 1];
      ScopesBegun(rest, id);
      ScopesAlways(rest);
      RegistryTold(rest);
      ScopesStep(After(rest), acts[|acts| - 1], id);
      BegunPush(acts, id);
    }
  }

  /** In every run exactly the open scopes are registered, exactly those begun and no
      longer open are cancelled, and the current one is the one last begun or
      entered, if it was open then and is still. */
  lemma {:induction false} ScopesFromHistory(acts: seq<Action>, id: nat)
    requires CanRun(acts)
    ensures var reg := After(acts).reg;
            && reg.current == Current(acts) && (id in reg.registered <==> Open(acts, id))
            && (id in reg.scopes <==> Begun(acts, id))
            && (id in reg.scopes ==> (reg.scopes[id].cancelled <==> !Open(acts, id)))
  {
    RegistryTold(acts);
    ScopesAlways(acts);
    ScopesBegun(acts, id);
  }

  // ---------- promises

  lemma ScopeStays(h: Host, a: Action, t: nat)
    requires Can(h, a)
    ensures t in h.tasks ==> t in Do(h, a).tasks && Do(h, a).tasks[t].scope == h.tasks[t].scope
    ensures t !in h.tasks ==> (t in Do(h, a).tasks <==> a == NewPromise(t) && !h.reg.closed)
    ensures a == NewPromise(t) && !h.reg.closed ==> Do(h, a).tasks[t].scope == h.reg.current
  {}

  /** The promise was made by the `i`-th action. */
  predicate MadeBy(acts: seq<Action>, t: nat, i: nat) {
    i < |acts| && acts[i] == NewPromise(t) && !Closed(acts[..i])
  }

  lemma MadeBefore(acts: seq<Action>, t: nat, i: nat)
    requires acts != []
    ensures i < |acts| - 1 ==> (MadeBy(acts[..|acts| - 1], t, i) <==> MadeBy(acts, t, i))
    ensures i < |acts| - 1 ==> acts[..|acts| - 1][..i] == acts[..i]
  {
    if i < |acts| - 1 {
      assert acts[..|acts| - 1][..i] == acts[..i];
    }
  }

  /** In every run a promise made while the context was open has a task, which
      belongs to the scope that was current then. */
  lemma {:induction false} PromiseKeepsScope(acts: seq<Action>, t: nat, i: nat)
    requires CanRun(acts) && MadeBy(acts, t, i)
    ensures t in After(acts).tasks && After(acts).tasks[t].scope == Current(acts[..i])
  {
    var rest, a := acts[..|acts| - 1], acts[|acts| - 1];
    RegistryTold(rest);
    ScopeStays(After(rest), a, t);
    MadeBefore(acts, t, i);
    if i == |rest| {
      assert acts[..i] == rest;
    } else {
      PromiseKeepsScope(rest, t, i);
    }
  }

  /** And every task is that of such a promise. */
  lemma {:induction false} TaskWasMade(acts: seq<Action>, t: nat) returns (i: nat)
    requires CanRun(acts) && t in After(acts).tasks
    ensures MadeBy(acts, t, i)
  {
    var rest, a := acts[..|acts| - 1], acts[|acts| - 1];
    RegistryTold(rest);
    ScopeStays(After(rest), a, t);
    if t in After(rest).tasks {
      i := TaskWasMade(rest, t);
      MadeBefore(acts, t, i);
    } else {
      i := |rest|;
      assert acts[..i] == rest;
    }
  }

  /** A promise of an open scope, or of none, settles once its future is ready, and
      the next poll of a promise of a cancelled scope ends its task unsettled. */
  lemma {:induction false} ReadyPromiseSettles(acts: seq<Action>, t: nat)
    requires CanRun(acts) && t in After(acts).tasks && After(acts).tasks[t].phase.Parked?
    ensures !IsCancelled(After(acts).reg.scopes, After(acts).tasks[t].scope) ==>
              var acts' := acts + [StartPoll(t)] + [EndPoll(t, true)] + [Settle(t)];
              CanRun(acts') && t in After(acts').tasks && After(acts').tasks[t].settled
    ensures IsCancelled(After(acts).reg.scopes, After(acts).tasks[t].scope) ==>
              var acts' := acts + [StartPoll(t)];
              CanRun(acts') && t in After(acts').tasks && After(acts').tasks[t].phase.Done?
              && After(acts').tasks[t].settled == After(acts).tasks[t].settled
  {
    RunOne(acts, StartPoll(t));
    var polled := acts + [StartPoll(t)];
    if !IsCancelled(After(acts).reg.scopes, After(acts).tasks[t].scope) {
      RunOne(polled, EndPoll(t, true));
      ConvertingStillSettles(polled + [EndPoll(t, true)], t);
    }
  }

  // ---------- only its own promises are aborted

  /** A scope lists its own tasks only, and only tasks of a cancelled scope or of a
      closed context have been aborted. */
  ghost predicate Own(h: Host) {
    && (forall id, t :: id in h.reg.scopes && t in h.reg.scopes[id].list.handles ==>
          t in h.tasks && h.tasks[t].scope == Some(id))
    && (forall t :: t in h.tasks && h.tasks[t].aborted ==> h.reg.closed || IsCancelled(h.reg.scopes, h.tasks[t].scope))
  }

  lemma PushAddsOne(l: List, t: nat, finished: set<nat>)
    ensures forall h :: h in TaskLists.Push(l, t, finished).handles ==> h in l.handles || h == t
  {
    TaskLists.UnfinishedMembers(l.handles, finished);
  }

  lemma OwnPromise(h: Host, n: nat)
    requires Own(h) && HostOk(h) && n !in h.tasks
    ensures Own(Do(h, NewPromise(n)))
  {
    if h.reg.current.Some? {
      PushAddsOne(h.reg.scopes[h.reg.current.value].list, n, Finished(h.tasks));
    }
  }

  lemma OwnAborts(h: Host, a: Action)
    requires Own(h) && HostOk(h) && (a.Cancel? || a.AbortAll?)
    ensures Own(Do(h, a))
  {
    var h' := Do(h, a);
    forall t | t in h'.tasks && h'.tasks[t].aborted
      ensures h'.reg.closed || IsCancelled(h'.reg.scopes, h'.tasks[t].scope)
    {
      assert t in h.tasks && h'.tasks[t].scope == h.tasks[t].scope;
    }
  }

  lemma OwnStep(h: Host, a: Action)
    requires Own(h) && HostOk(h) && Can(h, a)
    ensures Own(Do(h, a))
  {
    if a.NewPromise? {
      OwnPromise(h, a.task);
    } else if a.Cancel? || a.AbortAll? {
      OwnAborts(h, a);
    }
  }

  lemma {:induction false} OwnAlways(acts: seq<Action>)
    requires CanRun(acts)
    ensures Own(After(acts))
  {
    if acts != [] {
      OwnAlways(acts[..|acts| - 1]);
      ScopesAlways(acts[..|acts| - 1]);
      OwnStep(After(acts[..|acts| - 1]), acts[|acts| - 1]);
    }
  }

  /** In every run an unfinished promise has been aborted if and only if the context
      was closed or the scope that was current when it was made was cancelled. */
  lemma {:induction false} AbortedExactly(acts: seq<Action>, t: nat, i: nat)
    requires CanRun(acts) && MadeBy(acts, t, i)
    requires t in After(acts).tasks && !After(acts).tasks[t].phase.Done?
    ensures After(acts).tasks[t].aborted <==>
              Closed(acts) || (Current(acts[..i]).Some? && !Open(acts, Current(acts[..i]).value))
  {
    var scope := Current(acts[..i]);
    PromiseKeepsScope(acts, t, i);
    RegistryTold(acts);
    OwnAlways(acts);
    ScopesAlways(acts);
    assert TaskHeld(t, After(acts).tasks[t], After(acts).reg);
    if scope.Some? {
      ScopesFromHistory(acts, scope.value);
    }
  }
}
