/** Lists of task handles that sweep finished handles out only now and then. */
module TaskLists {
  import opened Basics

  const MIN_TASK_SWEEP: nat := 64

  datatype List = List(handles: seq<nat>, sweepAt: nat)

  const NO_TASKS := List([], 0)

  /** The handles not in `finished`, in their order. */
  function Unfinished(handles: seq<nat>, finished: set<nat>): seq<nat> {
    if handles == [] then []
    else
      var rest := Unfinished(handles[..|handles| - 1], finished);
      if handles[|handles| - 1] in finished then rest else rest + [handles[|handles| - 1]]
  }

  predicate Due(l: List) {
    |l.handles| >= Max(l.sweepAt, MIN_TASK_SWEEP)
  }

  function Push(l: List, handle: nat, finished: set<nat>): List {
    if Due(l) then
      var kept := Unfinished(l.handles, finished);
      List(kept + [handle], |kept| * 2)
    else List(l.handles + [handle], l.sweepAt)
  }

  lemma UnfinishedPush(handles: seq<nat>, handle: nat, finished: set<nat>)
    ensures Unfinished(handles + [handle], finished)
         == if handle in finished then Unfinished(handles, finished) else Unfinished(handles, finished) + [handle]
  {
    assert (handles + [handle])[..|handles|] == handles;
  }

  lemma {:induction false} UnfinishedMembers(handles: seq<nat>, finished: set<nat>)
    ensures |Unfinished(handles, finished)| <= |handles|
    ensures forall h :: h in Unfinished(handles, finished) <==> h in handles && h !in finished
  {
    if handles != [] {
      UnfinishedMembers(handles[..|handles| - 1], finished);
      assert handles == handles[..|handles| - 1] + [handles[|handles| - 1]];
    }
  }

  /** Sweeping early loses nothing: a later sweep finds the same handles. */
  lemma {:induction false} SweepTwice(handles: seq<nat>, before: set<nat>, finished: set<nat>)
    requires before <= finished
    ensures Unfinished(Unfinished(handles, before), finished) == Unfinished(handles, finished)
  {
    if handles != [] {
      var rest, last := handles[..|handles| - 1], handles[|handles| - 1];
      SweepTwice(rest, before, finished);
      UnfinishedPush(Unfinished(rest, before), last, finished);
    }
  }

  // ---------- the list updated in place

  /** Keeps the unfinished handles, asking each handle once. */
  method Retain(handles: seq<nat>, finished: set<nat>) returns (kept: seq<nat>, checks: nat)
    ensures kept == Unfinished(handles, finished) && checks == |handles|
  {
    kept, checks := [], 0;
    for i := 0 to |handles|
      invariant kept == Unfinished(handles[..i], finished) && checks == i
    {
      assert handles[..i + 1][..i] == handles[..i];
      checks := checks + 1;
      if handles[i] !in finished {
        kept := kept + [handles[i]];
      }
    }
    assert handles[..|handles|] == handles;
  }

  class TaskList {
    var handles: seq<nat>
    var sweepAt: nat

    ghost function View(): List
      reads this
    {
      List(handles, sweepAt)
    }

    constructor ()
      ensures View() == NO_TASKS
    {
      handles, sweepAt := [], 0;
    }

    /** `finished` is what the handles answer at the moment of the push. */
    method PushTaskHandle(handle: nat, finished: set<nat>) returns (checks: nat)
      modifies this
      ensures View() == Push(old(View()), handle, finished)
      ensures checks == if Due(old(View())) then |old(handles)| else 0
    {
      checks := 0;
      if |handles| >= Max(sweepAt, MIN_TASK_SWEEP) {
        handles, checks := Retain(handles, finished);
        sweepAt := |handles| * 2;
      }
      handles := handles + [handle];
    }

    /** Takes every handle out, to be aborted. */
    method TakeAll() returns (taken: seq<nat>)
      modifies this
      ensures taken == old(handles) && handles == [] && sweepAt == old(sweepAt)
    {
      taken := handles;
      handles := [];
    }
  }

  // ---------- a burst of pushes

  /** A push, and the tasks finished by then. */
  datatype Spawn = Spawn(handle: nat, finished: set<nat>)

  /** Tasks do not come back to life. */
  predicate Growing(spawns: seq<Spawn>) {
    forall i, j :: 0 <= i < j < |spawns| ==> spawns[i].finished <= spawns[j].finished
  }

  function Pushed(spawns: seq<Spawn>): seq<nat> {
    if spawns == [] then [] else Pushed(spawns[..|spawns| - 1]) + [spawns[|spawns| - 1].handle]
  }

  /** The list, the checks made so far and how many handles the last sweep kept. */
  datatype Burst = Burst(list: List, checks: nat, survivors: nat)

  function After(spawns: seq<Spawn>): Burst {
    if spawns == [] then Burst(NO_TASKS, 0, 0)
    else
      var b, s := After(spawns[..|spawns| - 1]), spawns[|spawns| - 1];
      var l := Push(b.list, s.handle, s.finished);
      if Due(b.list) then Burst(l, b.checks + |b.list.handles|, |Unfinished(b.list.handles, s.finished)|)
      else Burst(l, b.checks, b.survivors)
  }

  /** Every check is paid for by a push since the sweep before: what grew since
      the last sweep, `|handles| - survivors`, is not yet spent. */
  lemma {:induction false} SweepBound(spawns: seq<Spawn>)
    ensures var b := After(spawns);
            && b.list.sweepAt == 2 * b.survivors && b.survivors <= |b.list.handles|
            && b.checks <= 2 * (|spawns| - (|b.list.handles| - b.survivors))
            && |b.list.handles| <= Max(MIN_TASK_SWEEP, 2 * b.survivors)
  {
    if spawns != [] {
      var before, s := After(spawns[..|spawns| - 1]), spawns[|spawns| - 1];
      SweepBound(spawns[..|spawns| - 1]);
      UnfinishedMembers(before.list.handles, s.finished);
    }
  }

  /** The first 64 pushes check nothing, and the next one checks them all. */
  lemma {:induction false} FirstSweep(spawns: seq<Spawn>)
    requires |spawns| <= 65
    ensures |spawns| <= 64 ==> After(spawns).checks == 0 && After(spawns).list == List(Pushed(spawns), 0)
    ensures |spawns| == 65 ==> After(spawns).checks == 64
    ensures |Pushed(spawns)| == |spawns|
  {
    if spawns != [] {
      FirstSweep(spawns[..|spawns| - 1]);
    }
  }

  lemma PushLosesNothing(l: List, handle: nat, before: set<nat>, finished: set<nat>)
    requires before <= finished
    ensures Unfinished(Push(l, handle, before).handles, finished)
         == Unfinished(l.handles, finished) + if handle in finished then [] else [handle]
  {
    SweepTwice(l.handles, before, finished);
    UnfinishedPush(l.handles, handle, finished);
    UnfinishedPush(Unfinished(l.handles, before), handle, finished);
  }

  /** No unfinished handle is ever swept out, and the order is kept. */
  lemma {:induction false} NothingLost(spawns: seq<Spawn>, finished: set<nat>)
    requires Growing(spawns) && (forall i :: 0 <= i < |spawns| ==> spawns[i].finished <= finished)
    ensures Unfinished(After(spawns).list.handles, finished) == Unfinished(Pushed(spawns), finished)
  {
    if spawns != [] {
      var rest, s := spawns[..|spawns| - 1], spawns[|spawns| - 1];
      var l := After(rest).list;
      NothingLost(rest, finished);
      assert After(spawns).list == Push(l, s.handle, s.finished);
      PushLosesNothing(l, s.handle, s.finished, finished);
      UnfinishedPush(Pushed(rest), s.handle, finished);
    }
  }

  lemma {:induction false} AllUnfinished(handles: seq<nat>, finished: set<nat>)
    requires forall h :: h in handles ==> h !in finished
    ensures Unfinished(handles, finished) == handles
  {
    if handles != [] {
      AllUnfinished(handles[..|handles| - 1], finished);
      assert handles == handles[..|handles| - 1] + [handles[|handles| - 1]];
    }
  }

  lemma {:induction false} NoneUnfinished(handles: seq<nat>, finished: set<nat>)
    requires forall h :: h in handles ==> h in finished
    ensures Unfinished(handles, finished) == []
  {
    if handles != [] {
      NoneUnfinished(handles[..|handles| - 1], finished);
    }
  }

  predicate WithinTwiceLive(l: List, finished: set<nat>) {
    |l.handles| <= 2 * |Unfinished(l.handles, finished)|
  }

  /** A push that sweeps leaves live handles only. */
  lemma SweptWithinTwiceLive(l: List, h: nat, finished: set<nat>)
    requires Due(l) && h !in finished
    ensures WithinTwiceLive(Push(l, h, finished), finished)
  {
    UnfinishedMembers(l.handles, finished);
    AllUnfinished(Push(l, h, finished).handles, finished);
  }

  lemma ShortWithinTwiceLive(l: List, h: nat, finished: set<nat>)
    requires !Due(l) && |l.handles| <= 1 && h !in finished
    ensures WithinTwiceLive(Push(l, h, finished), finished)
  {
    UnfinishedPush(l.handles, h, finished);
  }

  /** A push leaves the list within twice its live handles, whatever has finished
      by then, exactly if it sweeps or the list held at most one handle. */
  lemma PushWithinTwiceLive(l: List, h: nat)
    requires h !in l.handles
    ensures (forall f: set<nat> :: h !in f ==> WithinTwiceLive(Push(l, h, f), f)) <==> Due(l) || |l.handles| <= 1
  {
    if Due(l) || |l.handles| <= 1 {
      forall f: set<nat> | h !in f
        ensures WithinTwiceLive(Push(l, h, f), f)
      {
        if Due(l) {
          SweptWithinTwiceLive(l, h, f);
        } else {
          ShortWithinTwiceLive(l, h, f);
        }
      }
    } else {
      var all := Elements(l.handles);
      NoneUnfinished(l.handles, all);
      UnfinishedPush(l.handles, h, all);
      assert h !in all && !WithinTwiceLive(Push(l, h, all), all);
    }
  }

  /** So it need not be: any handles that finish after their push stay listed
      until the next sweep. */
  lemma TwiceLiveFails(handle: nat)
    ensures !WithinTwiceLive(After([Spawn(handle, {})]).list, {handle})
  {
    var spawns := [Spawn(handle, {})];
    assert spawns[..|spawns| - 1] == [];
    assert After(spawns).list.handles == [] + [handle];
    UnfinishedPush([], handle, {handle});
  }

  /** Spawns a burst of tasks, then aborts what the list still holds: fewer than
      two checks a push, and every task unfinished by then is reached. */
  method SpawnThenAbort(spawns: seq<Spawn>, finished: set<nat>) returns (checks: nat, aborted: seq<nat>)
    requires Growing(spawns) && (forall i :: 0 <= i < |spawns| ==> spawns[i].finished <= finished)
    ensures checks == After(spawns).checks && aborted == After(spawns).list.handles
    ensures checks <= 2 * |spawns| && (spawns != [] ==> checks < 2 * |spawns|)
    ensures Unfinished(aborted, finished) == Unfinished(Pushed(spawns), finished)
    ensures |aborted| <= Max(MIN_TASK_SWEEP, 2 * After(spawns).survivors)
  {
    var l := new TaskList();
    checks := 0;
    for i := 0 to |spawns|
      invariant l.View() == After(spawns[..i]).list && checks == After(spawns[..i]).checks
    {
      assert spawns[..i + 1][..i] == spawns[..i];
      var n := l.PushTaskHandle(spawns[i].handle, spawns[i].finished);
      checks := checks + n;
    }
    assert spawns[..|spawns|] == spawns;
    aborted := l.TakeAll();
    SweepBound(spawns);
    NothingLost(spawns, finished);
    JustPushed(spawns);
  }

  lemma JustPushed(spawns: seq<Spawn>)
    ensures spawns != [] ==> After(spawns).survivors < |After(spawns).list.handles|
  {
    if spawns != [] {
      SweepBound(spawns[..|spawns| - 1]);
    }
  }
}
