/** How pool-level spawners find an idle worker: a scan of the workers' counters
    that is not atomic, and a notification to wait on when all were busy. Of the
    notification only this is taken for granted: notifying wakes one registered
    waiter or else stores one permit, a first poll consumes a stored permit or
    else registers, and a waiter dropped after it was woken passes the
    notification on. */
module Dispatcher {
  import opened Basics

  type SpawnerId = nat

  /** A spawner scans the workers one by one; after a scan that found all busy
      it polls the notification, is registered as a waiter, and is woken. */
  datatype Spawner = Scanning(next: nat) | Parking | Parked | Notified

  /** `counts` are the workers' in-flight counters; `owing` counts decrements to
      zero whose `notify_one` has not happened yet. */
  datatype Dispatch = Dispatch(counts: seq<int>, spawners: map<SpawnerId, Spawner>, permit: bool, owing: nat)

  datatype Step =
    | Recount(i: nat, count: int)             // worker i's counter moves by at most one
    | ExitNotify                              // the notification of a stopping idle worker
    | Notify(wake: SpawnerId)                 // an owed notify_one
    | Arrive(s: SpawnerId)
    | Scan(s: SpawnerId)                      // compare_exchange on the next worker
    | Poll(s: SpawnerId)                      // first poll of notified()
    | Wake(s: SpawnerId)
    | Cancel(s: SpawnerId, wake: SpawnerId)   // the spawner's future is dropped while it waits

  predicate Is(d: Dispatch, s: SpawnerId, phase: Spawner) {
    s in d.spawners && d.spawners[s] == phase
  }

  ghost predicate SomeIs(d: Dispatch, phase: Spawner) {
    exists s :: Is(d, s, phase)
  }

  ghost predicate SomeScanning(d: Dispatch) {
    exists s :: s in d.spawners && d.spawners[s].Scanning?
  }

  /** notify_one picks a registered waiter if there is one. */
  ghost predicate Picks(d: Dispatch, wake: SpawnerId) {
    SomeIs(d, Parked) ==> Is(d, wake, Parked)
  }

  function NotifyOne(d: Dispatch, wake: SpawnerId): Dispatch {
    if Is(d, wake, Parked) then d.(spawners := d.spawners[wake := Notified]) else d.(permit := true)
  }

  ghost predicate CanStep(d: Dispatch, x: Step) {
    match x
    case Recount(i, count) => i < |d.counts| && d.counts[i] - 1 <= count <= d.counts[i] + 1
    case ExitNotify => true
    case Notify(wake) => d.owing > 0 && Picks(d, wake)
    case Arrive(s) => s !in d.spawners
    case Scan(s) => s in d.spawners && d.spawners[s].Scanning? && d.spawners[s].next < |d.counts|
    case Poll(s) => Is(d, s, Parking)
    case Wake(s) => Is(d, s, Notified)
    case Cancel(s, wake) => Is(d, s, Parked) || (Is(d, s, Notified) && Picks(d, wake))
  }

  function ScanOne(d: Dispatch, s: SpawnerId): Dispatch
    requires s in d.spawners && d.spawners[s].Scanning? && d.spawners[s].next < |d.counts|
  {
    var i := d.spawners[s].next;
    if d.counts[i] == 0 then d.(counts := d.counts[i := 1], spawners := d.spawners - {s})
    else d.(spawners := d.spawners[s := if i + 1 == |d.counts| then Parking else Scanning(i + 1)])
  }

  function DoStep(d: Dispatch, x: Step): Dispatch
    requires CanStep(d, x)
  {
    match x
    case Recount(i, count) =>
      d.(counts := d.counts[i := count],
         owing := if d.counts[i] == 1 && count == 0 then d.owing + 1 else d.owing)
    case ExitNotify => d.(owing := d.owing + 1)
    case Notify(wake) => NotifyOne(d, wake).(owing := d.owing - 1)
    case Arrive(s) => d.(spawners := d.spawners[s := Scanning(0)])
    case Scan(s) => ScanOne(d, s)
    case Poll(s) =>
      if d.permit then d.(permit := false, spawners := d.spawners[s := Scanning(0)])
      else d.(spawners := d.spawners[s := Parked])
    case Wake(s) => d.(spawners := d.spawners[s := Scanning(0)])
    case Cancel(s, wake) =>
      var rest := d.(spawners := d.spawners - {s});
      if Is(d, s, Notified) then NotifyOne(rest, wake) else rest
  }

  // ---------- no spawner is left behind

  ghost predicate SomeBusy(d: Dispatch) {
    exists i :: 0 <= i < |d.counts| && d.counts[i] != 0
  }

  /** Something that will make a spawner look at the workers again. */
  ghost predicate SomeToken(d: Dispatch) {
    d.permit || d.owing > 0 || SomeIs(d, Notified) || SomeScanning(d)
  }

  ghost predicate SomeWaiting(d: Dispatch) {
    SomeIs(d, Parked) || SomeIs(d, Parking)
  }

  /** A stored permit means that nobody is registered; a waiting spawner means
      that some worker is busy or a token is on its way. */
  ghost predicate DispatchOk(d: Dispatch) {
    && |d.counts| > 0
    && (forall i :: 0 <= i < |d.counts| ==> d.counts[i] >= 0)
    && (forall s :: s in d.spawners && d.spawners[s].Scanning? ==> d.spawners[s].next < |d.counts|)
    && (d.permit ==> !SomeIs(d, Parked))
    && (SomeWaiting(d) ==> SomeBusy(d) || SomeToken(d))
  }

  lemma PermitKept(d: Dispatch, x: Step)
    requires DispatchOk(d) && CanStep(d, x)
    ensures DoStep(d, x).permit ==> !SomeIs(DoStep(d, x), Parked)
  {
    var d' := DoStep(d, x);
    if d'.permit && SomeIs(d', Parked) {
      var s :| Is(d', s, Parked);
      assert Is(d, s, Parked);
    }
  }

  /** Whoever waits after the step waited before, except a scan that just ended
      on a busy worker and a poll. */
  lemma WaitedBefore(d: Dispatch, x: Step)
    requires CanStep(d, x) && SomeWaiting(DoStep(d, x)) && !x.Scan? && !x.Poll?
    ensures SomeWaiting(d)
  {
    var d' := DoStep(d, x);
    if SomeIs(d', Parked) {
      var s :| Is(d', s, Parked);
      assert Is(d, s, Parked);
    } else {
      var s :| Is(d', s, Parking);
      assert Is(d, s, Parking);
    }
  }

  lemma BusyKept(d: Dispatch, x: Step)
    requires DispatchOk(d) && CanStep(d, x) && SomeBusy(d)
    ensures SomeBusy(DoStep(d, x)) || DoStep(d, x).owing > 0
  {
    var d' := DoStep(d, x);
    var i :| 0 <= i < |d.counts| && d.counts[i] != 0;
    assert i < |d'.counts| && (d'.counts[i] != 0 || d'.owing > 0);
  }

  lemma TokenKept(d: Dispatch, x: Step)
    requires DispatchOk(d) && CanStep(d, x) && SomeToken(d)
    ensures SomeBusy(DoStep(d, x)) || SomeToken(DoStep(d, x))
  {
    var d' := DoStep(d, x);
    if SomeIs(d, Notified) {
      var s :| Is(d, s, Notified);
      assert Is(d', s, Notified) || (x.Wake? && d'.spawners[s].Scanning?) || x.Cancel?;
      if x.Cancel? && x.s == s {
        assert Is(d', x.wake, Notified) || d'.permit;
      }
    } else if SomeScanning(d) {
      var s :| s in d.spawners && d.spawners[s].Scanning?;
      if x.Scan? && x.s == s {
        assert d'.counts[d.spawners[s].next] != 0;
      } else {
        assert s in d'.spawners && d'.spawners[s].Scanning?;
      }
    } else if x.Notify? {
      assert Is(d', x.wake, Notified) || d'.permit;
    } else if x.Poll? && d.permit {
      assert d'.spawners[x.s].Scanning?;
    }
  }

  lemma DispatchKept(d: Dispatch, x: Step)
    requires DispatchOk(d) && CanStep(d, x) && (x.Recount? ==> x.count >= 0)
    ensures DispatchOk(DoStep(d, x))
  {
    var d' := DoStep(d, x);
    PermitKept(d, x);
    if SomeWaiting(d') {
      if SomeToken(d) {
        TokenKept(d, x);
      } else {
        assert !x.Scan?;
        if x.Poll? {
          assert Is(d, x.s, Parking);
        } else {
          WaitedBefore(d, x);
        }
        BusyKept(d, x);
      }
    }
  }

  /** The dispatcher after a schedule of steps, if each was possible in turn and
      no counter went negative. */
  ghost function After(n: nat, xs: seq<Step>): Option<Dispatch> {
    if xs == [] then Some(Dispatch(seq(n, i => 0), map[], false, 0))
    else
      var before := After(n, xs[..|xs| - 1]);
      var x := xs[|xs| - 1];
      if before.Some? && CanStep(before.value, x) && (x.Recount? ==> x.count >= 0)
      then Some(DoStep(before.value, x)) else None
  }

  lemma {:induction false} DispatchAlways(n: nat, xs: seq<Step>)
    requires n > 0 && After(n, xs).Some?
    ensures DispatchOk(After(n, xs).value)
  {
    if xs != [] {
      DispatchAlways(n, xs[..|xs| - 1]);
      DispatchKept(After(n, xs[..|xs| - 1]).value, xs[|xs| - 1]);
    }
  }

  /** In every reachable state in which all workers are idle and some spawner
      waits, a permit is stored, a notification is on its way or a spawner is
      still scanning. */
  lemma {:induction false} NoStrandedDispatcher(n: nat, xs: seq<Step>)
    requires n > 0 && After(n, xs).Some?
    ensures var d := After(n, xs).value;
            (forall i :: 0 <= i < |d.counts| ==> d.counts[i] == 0) && SomeWaiting(d) ==> SomeToken(d)
  {
    DispatchAlways(n, xs);
  }

  /** Steps of the dispatcher itself: no new spawner, no cancellation, no worker. */
  predicate Internal(x: Step) {
    x.Notify? || x.Scan? || x.Poll? || x.Wake?
  }

  /** The states a sequence of internal steps goes through. */
  ghost predicate Reaches(d: Dispatch, xs: seq<Step>, d': Dispatch)
    decreases |xs|
  {
    if xs == [] then d == d'
    else Internal(xs[0]) && CanStep(d, xs[0]) && Reaches(DoStep(d, xs[0]), xs[1..], d')
  }

  /** A spawner has reserved a worker that was idle. */
  ghost predicate Dispatched(d: Dispatch, d': Dispatch) {
    exists i :: 0 <= i < |d.counts| == |d'.counts| && d.counts[i] == 0 && d'.counts == d.counts[i := 1]
  }

  ghost predicate AllIdle(d: Dispatch) {
    forall i :: 0 <= i < |d.counts| ==> d.counts[i] == 0
  }

  lemma ScanDispatches(d: Dispatch, s: SpawnerId) returns (xs: seq<Step>, d': Dispatch)
    requires AllIdle(d) && s in d.spawners && d.spawners[s].Scanning? && d.spawners[s].next < |d.counts|
    ensures |xs| == 1 && Reaches(d, xs, d') && Dispatched(d, d')
  {
    xs, d' := [Scan(s)], DoStep(d, Scan(s));
    assert Reaches(d', xs[1..], d');
  }

  lemma ThenDispatches(d: Dispatch, x: Step, ys: seq<Step>, d': Dispatch) returns (xs: seq<Step>)
    requires Internal(x) && CanStep(d, x) && !x.Scan?
    requires Reaches(DoStep(d, x), ys, d') && Dispatched(DoStep(d, x), d')
    ensures |xs| == |ys| + 1 && Reaches(d, xs, d') && Dispatched(d, d')
  {
    xs := [x] + ys;
    assert xs[1..] == ys;
    assert DoStep(d, x).counts == d.counts;
  }

  lemma NotifiedDispatches(d: Dispatch, s: SpawnerId) returns (xs: seq<Step>, d': Dispatch)
    requires |d.counts| > 0 && AllIdle(d) && (Is(d, s, Notified) || (d.permit && Is(d, s, Parking)))
    ensures |xs| == 2 && Reaches(d, xs, d') && Dispatched(d, d')
  {
    var x := if Is(d, s, Notified) then Wake(s) else Poll(s);
    xs, d' := ScanDispatches(DoStep(d, x), s);
    xs := ThenDispatches(d, x, xs, d');
  }

  lemma TokenDispatches(d: Dispatch) returns (xs: seq<Step>, d': Dispatch)
    requires DispatchOk(d) && AllIdle(d) && SomeWaiting(d)
    requires d.permit || SomeIs(d, Notified) || SomeScanning(d)
    ensures |xs| <= 2 && Reaches(d, xs, d') && Dispatched(d, d')
  {
    if SomeScanning(d) {
      var s :| s in d.spawners && d.spawners[s].Scanning?;
      xs, d' := ScanDispatches(d, s);
    } else {
      var s: SpawnerId;
      if SomeIs(d, Notified) {
        s :| Is(d, s, Notified);
      } else {
        s :| Is(d, s, Parking);
      }
      xs, d' := NotifiedDispatches(d, s);
    }
  }

  /** Whenever all workers are idle and some spawner waits, at most three steps
      of the dispatcher itself give an idle worker to a spawner. */
  lemma {:induction false} WaitingSpawnerCanProceed(n: nat, history: seq<Step>) returns (xs: seq<Step>, d': Dispatch)
    requires n > 0 && After(n, history).Some?
    requires AllIdle(After(n, history).value) && SomeWaiting(After(n, history).value)
    ensures |xs| <= 3 && Reaches(After(n, history).value, xs, d') && Dispatched(After(n, history).value, d')
  {
    var d := After(n, history).value;
    DispatchAlways(n, history);
    if d.permit || SomeIs(d, Notified) || SomeScanning(d) {
      xs, d' := TokenDispatches(d);
    } else {
      var s: SpawnerId;
      if SomeIs(d, Parked) {
        s :| Is(d, s, Parked);
      } else {
        s :| Is(d, s, Parking);
      }
      var e := DoStep(d, Notify(s));
      DispatchKept(d, Notify(s));
      assert Is(e, s, Notified) || (e.permit && Is(e, s, Parking));
      xs, d' := NotifiedDispatches(e, s);
      xs := ThenDispatches(d, Notify(s), xs, d');
    }
  }

  lemma {:induction false} CountsStay(n: nat, xs: seq<Step>)
    requires After(n, xs).Some?
    ensures |After(n, xs).value.counts| == n
  {
    if xs != [] {
      CountsStay(n, xs[..|xs| - 1]);
    }
  }
}
