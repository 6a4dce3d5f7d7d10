/** What a spawner has seen before it waits: every worker, busy when it looked. */
module DispatcherScan {
  import opened Basics
  import opened Dispatcher

  /** The spawner starts to look from the first worker on, or stops looking. */
  predicate Restarts(x: Step, s: SpawnerId) {
    x == Arrive(s) || x == Poll(s) || x == Wake(s)
  }

  /** How far the spawner's scan has come. */
  predicate Passed(d: Dispatch, s: SpawnerId, k: nat) {
    && s in d.spawners
    && (d.spawners[s] == Scanning(k) || (d.spawners[s] == Parking && k == |d.counts|))
  }

  lemma PassedStep(d: Dispatch, x: Step, s: SpawnerId, k: nat)
    requires CanStep(d, x) && Passed(DoStep(d, x), s, k)
    ensures Restarts(x, s) ==> k == 0
    ensures x == Scan(s) ==> k > 0 && Passed(d, s, k - 1) && k <= |d.counts| && d.counts[k - 1] != 0
    ensures !Restarts(x, s) && x != Scan(s) ==> Passed(d, s, k)
  {}

  /** At step `p` of the schedule the spawner looks at worker `i` and finds it busy. */
  ghost predicate Looks(n: nat, xs: seq<Step>, s: SpawnerId, i: nat, p: nat) {
    && p < |xs| && xs[p] == Scan(s) && After(n, xs[..p]).Some? && Passed(After(n, xs[..p]).value, s, i)
    && i < |After(n, xs[..p]).value.counts| && After(n, xs[..p]).value.counts[i] != 0
  }

  lemma LastPassed(n: nat, xs: seq<Step>, s: SpawnerId, k: nat)
    requires xs != [] && After(n, xs).Some? && Passed(After(n, xs).value, s, k) && k > 0
    ensures var rest, x := xs[..|xs| - 1], xs[|xs| - 1];
            && !Restarts(x, s) && After(n, rest).Some?
            && (if x == Scan(s) then Passed(After(n, rest).value, s, k - 1) && Looks(n, xs, s, k - 1, |xs| - 1)
                else Passed(After(n, rest).value, s, k))
  {
    PassedStep(After(n, xs[..|xs| - 1]).value, xs[|xs| - 1], s, k);
  }

  lemma LooksStays(n: nat, xs: seq<Step>, s: SpawnerId, i: nat, p: nat)
    requires xs != [] && Looks(n, xs[..|xs| - 1], s, i, p)
    ensures Looks(n, xs, s, i, p)
  {
    assert xs[..|xs| - 1][..p] == xs[..p];
  }

  /** A spawner that waits, or is about to, has in this scan found the workers busy
      one after the other: here is the moment at which it looked at worker `i`. */
  lemma {:induction false} SawBusy(n: nat, xs: seq<Step>, s: SpawnerId, k: nat, i: nat) returns (p: nat)
    requires After(n, xs).Some? && Passed(After(n, xs).value, s, k) && i < k
    ensures Looks(n, xs, s, i, p) && (forall q :: p < q < |xs| ==> !Restarts(xs[q], s))
    decreases |xs|
  {
    var rest, x := xs[..|xs| - 1], xs[|xs| - 1];
    LastPassed(n, xs, s, k);
    if x == Scan(s) && i == k - 1 {
      p := |rest|;
    } else {
      p := SawBusy(n, rest, s, if x == Scan(s) then k - 1 else k, i);
      LooksStays(n, xs, s, i, p);
      assert forall q :: p < q < |rest| ==> xs[q] == rest[q];
    }
  }
}
