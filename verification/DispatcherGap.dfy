/** A spawner may stay parked beside an idle worker: two notifications that find
    nobody registered leave one permit. It happens exactly in pools of two or
    more workers, and only while another worker is busy. */
module DispatcherGap {
  import opened Basics
  import opened Dispatcher

  /** A worker is idle, a spawner is parked, and nothing is on its way to wake it. */
  ghost predicate Overlooked(d: Dispatch) {
    (exists i :: 0 <= i < |d.counts| && d.counts[i] == 0) && SomeIs(d, Parked) && !SomeToken(d)
  }

  /** Then some worker is busy: its next decrement to zero wakes the spawner. */
  lemma {:induction false} OverlookedOnlyWhileBusy(n: nat, xs: seq<Step>)
    requires n > 0 && After(n, xs).Some? && Overlooked(After(n, xs).value)
    ensures SomeBusy(After(n, xs).value)
  {
    DispatchAlways(n, xs);
  }

  /** A single worker is never idle beside a parked spawner. */
  lemma OneWorkerNeverOverlooks(xs: seq<Step>)
    requires After(1, xs).Some?
    ensures !Overlooked(After(1, xs).value)
  {
    CountsStay(1, xs);
    if Overlooked(After(1, xs).value) {
      OverlookedOnlyWhileBusy(1, xs);
    }
  }

  // ---------- the schedule

  ghost predicate Gets(n: nat, xs: seq<Step>, d: Dispatch) {
    After(n, xs) == Some(d)
  }

  lemma Then(n: nat, xs: seq<Step>, d: Dispatch, x: Step)
    requires Gets(n, xs, d) && CanStep(d, x) && (x.Recount? ==> x.count >= 0)
    ensures Gets(n, xs + [x], DoStep(d, x))
  {
    assert (xs + [x])[..|xs|] == xs;
  }

  /** The first `k` of `n` workers have one task each. */
  function Busy(n: nat, k: nat): seq<int> {
    seq(n, i => if i < k then 1 else 0)
  }

  lemma {:induction false} MakeBusy(n: nat, k: nat) returns (xs: seq<Step>)
    requires k <= n
    ensures Gets(n, xs, Dispatch(Busy(n, k), map[], false, 0))
  {
    if k == 0 {
      xs := [];
      assert seq(n, i => 0) == Busy(n, 0);
    } else {
      xs := MakeBusy(n, k - 1);
      Then(n, xs, Dispatch(Busy(n, k - 1), map[], false, 0), Recount(k - 1, 1));
      xs := xs + [Recount(k - 1, 1)];
      assert Busy(n, k - 1)[k - 1 := 1] == Busy(n, k);
    }
  }

  /** A scan of busy workers ends with the spawner about to park. */
  lemma {:induction false} ScanBusy(n: nat, xs: seq<Step>, d: Dispatch, s: SpawnerId, i: nat) returns (xs': seq<Step>)
    requires Gets(n, xs, d) && Is(d, s, Scanning(i)) && i < |d.counts|
    requires forall k :: 0 <= k < |d.counts| ==> d.counts[k] != 0
    ensures Gets(n, xs', d.(spawners := d.spawners[s := Parking]))
    decreases |d.counts| - i
  {
    Then(n, xs, d, Scan(s));
    xs' := xs + [Scan(s)];
    if i + 1 < |d.counts| {
      var d' := DoStep(d, Scan(s));
      xs' := ScanBusy(n, xs', d', s, i + 1);
      assert d'.spawners[s := Parking] == d.spawners[s := Parking];
    }
  }

  lemma Park(n: nat, xs: seq<Step>, d: Dispatch, s: SpawnerId) returns (xs': seq<Step>)
    requires Gets(n, xs, d) && s !in d.spawners && |d.counts| > 0
    requires forall k :: 0 <= k < |d.counts| ==> d.counts[k] != 0
    ensures Gets(n, xs', d.(spawners := d.spawners[s := Parking]))
  {
    Then(n, xs, d, Arrive(s));
    var d' := DoStep(d, Arrive(s));
    xs' := ScanBusy(n, xs + [Arrive(s)], d', s, 0);
    assert d'.spawners[s := Parking] == d.spawners[s := Parking];
  }

  /** A worker finishes its task while nobody is registered: a permit is stored. */
  lemma Finishes(n: nat, xs: seq<Step>, d: Dispatch, i: nat) returns (xs': seq<Step>)
    requires Gets(n, xs, d) && i < |d.counts| && d.counts[i] == 1 && d.owing == 0 && !SomeIs(d, Parked)
    ensures Gets(n, xs', d.(counts := d.counts[i := 0], permit := true))
  {
    Then(n, xs, d, Recount(i, 0));
    var d' := DoStep(d, Recount(i, 0));
    assert forall s :: Is(d', s, Parked) ==> Is(d, s, Parked);
    Then(n, xs + [Recount(i, 0)], d', Notify(0));
    xs' := xs + [Recount(i, 0)] + [Notify(0)];
  }

  /** Spawners 0 and 1 are about to park when workers 0 and 1 finish: one permit
      for two idle workers. Spawner 0 takes it and worker 0, and spawner 1 parks
      beside worker 1. */
  lemma SecondParks(n: nat, xs: seq<Step>, counts: seq<int>) returns (xs': seq<Step>, d: Dispatch)
    requires n >= 2 && |counts| == n && counts[0] == 0 && counts[1] == 0
    requires Gets(n, xs, Dispatch(counts, map[0 := Parking, 1 := Parking], true, 0))
    ensures Gets(n, xs', d) && Overlooked(d)
  {
    var d0 := Dispatch(counts, map[0 := Parking, 1 := Parking], true, 0);
    Then(n, xs, d0, Poll(0));
    var d1 := Dispatch(counts, map[0 := Scanning(0), 1 := Parking], false, 0);
    assert DoStep(d0, Poll(0)) == d1;
    Then(n, xs + [Poll(0)], d1, Scan(0));
    var d2 := Dispatch(counts[0 := 1], map[1 := Parking], false, 0);
    assert DoStep(d1, Scan(0)) == d2;
    xs' := xs + [Poll(0)] + [Scan(0)];
    Then(n, xs', d2, Poll(1));
    d := Dispatch(counts[0 := 1], map[1 := Parked], false, 0);
    assert DoStep(d2, Poll(1)) == d && Is(d, 1, Parked) && d.counts[1] == 0;
    xs' := xs' + [Poll(1)];
  }

  /** Every pool of two or more workers has such a schedule. */
  lemma TwoWorkersMayOverlook(n: nat) returns (xs: seq<Step>, d: Dispatch)
    requires n >= 2
    ensures After(n, xs) == Some(d) && Overlooked(d)
  {
    xs := MakeBusy(n, n);
    d := Dispatch(Busy(n, n), map[], false, 0);
    xs := Park(n, xs, d, 0);
    d := d.(spawners := map[][0 := Parking]);
    xs := Park(n, xs, d, 1);
    d := d.(spawners := map[0 := Parking, 1 := Parking]);
    xs := Finishes(n, xs, d, 0);
    d := d.(counts := d.counts[0 := 0], permit := true);
    xs := Finishes(n, xs, d, 1);
    xs, d := SecondParks(n, xs, d.counts[1 := 0]);
  }
}
