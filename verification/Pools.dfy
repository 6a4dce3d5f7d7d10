/** Shared and pinned pools: several workers side by side. */
module Pools {
  import opened Basics
  import opened TaskLife
  import opened WorkerLoop
  import opened WorkerProofs
  import D = Dispatcher

  // ---------- the shared pool

  datatype Pool = Pool(workers: seq<Worker>, spawners: map<D.SpawnerId, D.Spawner>, permit: bool, owing: nat)

  /** The part of the pool its dispatcher sees. */
  function View(p: Pool): D.Dispatch {
    D.Dispatch(Counts(p.workers), p.spawners, p.permit, p.owing)
  }

  function Counts(ws: seq<Worker>): seq<int> {
    seq(|ws|, i requires 0 <= i < |ws| => ws[i].chan.inflight)
  }

  /** A worker's action, a spawner's compare_exchange on the next worker of its
      scan, or another step of the dispatcher. The pool keeps its senders. */
  datatype PoolAction = Work(i: nat, a: Action) | Claim(s: D.SpawnerId, t: TaskId, key: Key) | Dispatching(x: D.Step)

  ghost predicate PoolEnabled(p: Pool, b: PoolAction) {
    match b
    case Work(i, a) => i < |p.workers| && Enabled(p.workers[i], a) && !a.ReserveIfIdle? && !a.DropSenders?
    case Claim(s, t, key) =>
      D.CanStep(View(p), D.Scan(s))
      && (p.workers[p.spawners[s].next].chan.inflight == 0 ==>
            Enabled(p.workers[p.spawners[s].next], ReserveIfIdle(t, key)))
    case Dispatching(x) => !x.Recount? && !x.Scan? && D.CanStep(View(p), x)
  }

  /** Replaces worker `i`; a decrement to zero owes a notification. */
  function Worked(p: Pool, i: nat, w: Worker): Pool
    requires i < |p.workers|
  {
    p.(workers := p.workers[i := w],
       owing := if p.workers[i].chan.inflight == 1 && w.chan.inflight == 0 then p.owing + 1 else p.owing)
  }

  function PoolApply(p: Pool, b: PoolAction): Pool
    requires PoolEnabled(p, b)
  {
    match b
    case Work(i, a) => Worked(p, i, Apply(p.workers[i], a))
    case Claim(s, t, key) =>
      var i := p.spawners[s].next;
      if p.workers[i].chan.inflight == 0 then
        p.(workers := p.workers[i := Apply(p.workers[i], ReserveIfIdle(t, key))], spawners := p.spawners - {s})
      else
        p.(spawners := p.spawners[s := if i + 1 == |p.workers| then D.Parking else D.Scanning(i + 1)])
    case Dispatching(x) =>
      var d := D.DoStep(View(p), x);
      p.(spawners := d.spawners, permit := d.permit, owing := d.owing)
  }

  /** The dispatcher step a pool action amounts to. */
  function StepOf(p: Pool, b: PoolAction): D.Step
    requires PoolEnabled(p, b)
  {
    match b
    case Work(i, a) => D.Recount(i, Apply(p.workers[i], a).chan.inflight)
    case Claim(s, _, _) => D.Scan(s)
    case Dispatching(x) => x
  }

  lemma CountMoves(c: Channel, a: Action)
    requires ChannelCan(c, a)
    ensures c.inflight - 1 <= NextChannel(c, a).inflight <= c.inflight + 1
    ensures a.ReserveIfIdle? ==> NextChannel(c, a).inflight == 1
  {
  }

  lemma {:induction false} PoolRefinesDispatcher(p: Pool, b: PoolAction)
    requires PoolEnabled(p, b)
    ensures D.CanStep(View(p), StepOf(p, b))
    ensures View(PoolApply(p, b)) == D.DoStep(View(p), StepOf(p, b))
  {
    match b
    case Work(i, a) =>
      CountMoves(p.workers[i].chan, a);
    case Claim(s, t, key) =>
      var i := p.spawners[s].next;
      if p.workers[i].chan.inflight == 0 {
        CountMoves(p.workers[i].chan, ReserveIfIdle(t, key));
      }
    case Dispatching(x) =>
  }

  ghost predicate WorkersOk(ws: seq<Worker>) {
    forall i :: 0 <= i < |ws| ==> Inv(ws[i])
  }

  lemma WorkerReplaced(ws: seq<Worker>, i: nat, w: Worker)
    requires WorkersOk(ws) && i < |ws| && Inv(w)
    ensures WorkersOk(ws[i := w])
  {
  }

  lemma WorkerActs(ws: seq<Worker>, i: nat, a: Action)
    requires WorkersOk(ws) && i < |ws| && Enabled(ws[i], a)
    ensures WorkersOk(ws[i := Apply(ws[i], a)])
  {
    InvKept(ws[i], a);
    WorkerReplaced(ws, i, Apply(ws[i], a));
  }

  lemma WorkersKept(p: Pool, b: PoolAction)
    requires WorkersOk(p.workers) && PoolEnabled(p, b)
    ensures WorkersOk(PoolApply(p, b).workers) && |PoolApply(p, b).workers| == |p.workers|
  {
    match b
    case Work(i, a) => WorkerActs(p.workers, i, a);
    case Claim(s, t, key) =>
      var i := p.spawners[s].next;
      if p.workers[i].chan.inflight == 0 {
        WorkerActs(p.workers, i, ReserveIfIdle(t, key));
      }
    case Dispatching(_) =>
  }

  lemma CountsNotNegative(ws: seq<Worker>)
    requires WorkersOk(ws)
    ensures forall i :: 0 <= i < |ws| ==> Counts(ws)[i] >= 0
  {
  }

  /** The pool after a schedule, if every action was enabled in turn. */
  ghost function PoolAfter(n: nat, capacity: nat, bs: seq<PoolAction>): Option<Pool> {
    if bs == [] then Some(Pool(seq(n, i => Init(capacity)), map[], false, 0))
    else
      var before := PoolAfter(n, capacity, bs[..|bs| - 1]);
      if before.Some? && PoolEnabled(before.value, bs[|bs| - 1])
      then Some(PoolApply(before.value, bs[|bs| - 1])) else None
  }

  lemma {:induction false} SharedPoolAlways(n: nat, capacity: nat, bs: seq<PoolAction>)
    requires n > 0 && PoolAfter(n, capacity, bs).Some?
    ensures var p := PoolAfter(n, capacity, bs).value;
            WorkersOk(p.workers) && |p.workers| == n && D.DispatchOk(View(p))
  {
    if bs == [] {
      InvAlways(capacity, []);
    } else {
      var p, b := PoolAfter(n, capacity, bs[..|bs| - 1]).value, bs[|bs| - 1];
      SharedPoolAlways(n, capacity, bs[..|bs| - 1]);
      WorkersKept(p, b);
      CountsNotNegative(PoolApply(p, b).workers);
      PoolRefinesDispatcher(p, b);
      D.DispatchKept(View(p), StepOf(p, b));
    }
  }

  /** In every schedule of a shared pool, whenever all workers are idle and a
      spawner waits, a permit is stored, a notification is on its way or a
      spawner still scans. */
  lemma {:induction false} SharedPoolNeverStrands(n: nat, capacity: nat, bs: seq<PoolAction>)
    requires n > 0 && PoolAfter(n, capacity, bs).Some?
    ensures var p := PoolAfter(n, capacity, bs).value;
            (forall i :: 0 <= i < n ==> i < |p.workers| && p.workers[i].chan.inflight == 0) ==>
              D.SomeWaiting(View(p)) ==> D.SomeToken(View(p))
  {
    SharedPoolAlways(n, capacity, bs);
    var p := PoolAfter(n, capacity, bs).value;
    assert |View(p).counts| == |p.workers|;
  }

  /** Tasks are spawned through the pool only, never on one of its workers. */
  predicate ThroughPool(bs: seq<PoolAction>) {
    forall i :: 0 <= i < |bs| ==> !(bs[i].Work? && bs[i].a.Reserve?)
  }

  lemma OnlyReservesAdd(c: Channel, a: Action)
    requires ChannelCan(c, a) && !a.Reserve? && !a.ReserveIfIdle?
    ensures NextChannel(c, a).inflight <= c.inflight
  {
  }

  lemma OneTaskStep(p: Pool, b: PoolAction)
    requires PoolEnabled(p, b) && !(b.Work? && b.a.Reserve?)
    requires forall i :: 0 <= i < |p.workers| ==> p.workers[i].chan.inflight <= 1
    ensures forall i :: 0 <= i < |PoolApply(p, b).workers| ==> PoolApply(p, b).workers[i].chan.inflight <= 1
  {
    match b
    case Work(i, a) =>
      CountMoves(p.workers[i].chan, a);
      OnlyReservesAdd(p.workers[i].chan, a);
    case Claim(s, t, key) =>
      var i := p.spawners[s].next;
      if p.workers[i].chan.inflight == 0 {
        CountMoves(p.workers[i].chan, ReserveIfIdle(t, key));
      }
    case Dispatching(_) =>
  }

  lemma {:induction false} OneTaskCounted(n: nat, capacity: nat, bs: seq<PoolAction>)
    requires PoolAfter(n, capacity, bs).Some? && ThroughPool(bs)
    ensures var p := PoolAfter(n, capacity, bs).value;
            forall i :: 0 <= i < |p.workers| ==> p.workers[i].chan.inflight <= 1
  {
    if bs != [] {
      OneTaskCounted(n, capacity, bs[..|bs| - 1]);
      OneTaskStep(PoolAfter(n, capacity, bs[..|bs| - 1]).value, bs[|bs| - 1]);
    }
  }

  /** A pool hands a worker no second task before it has settled the first: on
      each worker at most one task is being sent, queued or held. */
  lemma {:induction false} OneTaskEach(n: nat, capacity: nat, bs: seq<PoolAction>, i: nat)
    requires n > 0 && PoolAfter(n, capacity, bs).Some? && ThroughPool(bs) && i < n
    ensures |PoolAfter(n, capacity, bs).value.workers| == n
    ensures var c := PoolAfter(n, capacity, bs).value.workers[i].chan;
            |c.reserving| + |c.queue| + |HeldSeq(c)| <= 1
  {
    SharedPoolAlways(n, capacity, bs);
    OneTaskCounted(n, capacity, bs);
  }

  // ---------- the pinned pool

  /** An action of worker `i`, with spawns routed by an arbitrary fixed hash of their key. */
  datatype PinnedAction = PinnedAction(i: nat, a: Action)

  predicate PinnedEnabled(hash: Key -> nat, ws: seq<Worker>, b: PinnedAction) {
    && b.i < |ws| && Enabled(ws[b.i], b.a)
    && !b.a.ReserveIfIdle?
    && (b.a.Reserve? ==> b.i == hash(b.a.key) % |ws|)
  }

  function PinnedAfter(hash: Key -> nat, n: nat, capacity: nat, bs: seq<PinnedAction>): Option<seq<Worker>> {
    if bs == [] then Some(seq(n, i => Init(capacity)))
    else
      var before := PinnedAfter(hash, n, capacity, bs[..|bs| - 1]);
      var b := bs[|bs| - 1];
      if before.Some? && PinnedEnabled(hash, before.value, b)
      then Some(before.value[b.i := Apply(before.value[b.i], b.a)]) else None
  }

  /** Every key a worker has seen is routed to it. */
  ghost predicate AtHome(hash: Key -> nat, n: nat, i: nat, w: Worker)
    requires n > 0
  {
    && (forall t :: t in w.chan.reserving ==> hash(w.chan.reserving[t]) % n == i)
    && (forall t :: t in w.tasks ==> hash(w.tasks[t].key) % n == i)
  }

  lemma AtHomeKept(hash: Key -> nat, n: nat, i: nat, w: Worker, a: Action)
    requires n > 0 && AtHome(hash, n, i, w) && Enabled(w, a) && !a.ReserveIfIdle?
    requires a.Reserve? ==> i == hash(a.key) % n
    ensures AtHome(hash, n, i, Apply(w, a))
  {
    var x := TouchOf(w, a);
    if x.Touch? {
      StageMoves(w.tasks[x.t], x.e);
    }
  }

  lemma {:induction false} PinnedAlways(hash: Key -> nat, n: nat, capacity: nat, bs: seq<PinnedAction>)
    requires n > 0 && PinnedAfter(hash, n, capacity, bs).Some?
    ensures var ws := PinnedAfter(hash, n, capacity, bs).value; |ws| == n && WorkersOk(ws)
  {
    if bs == [] {
      InvAlways(capacity, []);
    } else {
      var ws, b := PinnedAfter(hash, n, capacity, bs[..|bs| - 1]).value, bs[|bs| - 1];
      PinnedAlways(hash, n, capacity, bs[..|bs| - 1]);
      InvKept(ws[b.i], b.a);
    }
  }

  lemma {:induction false} PinnedHome(hash: Key -> nat, n: nat, capacity: nat, bs: seq<PinnedAction>)
    requires n > 0 && PinnedAfter(hash, n, capacity, bs).Some?
    ensures var ws := PinnedAfter(hash, n, capacity, bs).value;
            |ws| == n && (forall i :: 0 <= i < n ==> AtHome(hash, n, i, ws[i]))
  {
    if bs != [] {
      var ws, b := PinnedAfter(hash, n, capacity, bs[..|bs| - 1]).value, bs[|bs| - 1];
      PinnedHome(hash, n, capacity, bs[..|bs| - 1]);
      AtHomeKept(hash, n, b.i, ws[b.i], b.a);
    }
  }

  lemma {:induction false} NoRunsOfKey(runs: seq<Run>, key: Key)
    requires forall r :: r in runs ==> r.key != key
    ensures OfKey(runs, key) == []
  {
    if runs != [] {
      NoRunsOfKey(runs[..|runs| - 1], key);
    }
  }

  lemma StrangerNeverRuns(hash: Key -> nat, n: nat, i: nat, w: Worker, key: Key)
    requires n > 0 && AtHome(hash, n, i, w) && StartCounts(w.keyed, w.tasks) && i != hash(key) % n
    ensures OfKey(w.keyed.runs, key) == []
  {
    NoRunsOfKey(w.keyed.runs, key);
  }

  /** In every schedule of a pinned pool the tasks of one key live on one worker
      and form one sequential actor there; no other worker ever sees the key. */
  lemma {:induction false} PinnedKeyIsOneActor(hash: Key -> nat, n: nat, capacity: nat, bs: seq<PinnedAction>, key: Key)
    requires n > 0 && PinnedAfter(hash, n, capacity, bs).Some?
    ensures var ws := PinnedAfter(hash, n, capacity, bs).value;
            && |ws| == n
            && ActorOf(ws[hash(key) % n], key)
            && (forall i :: 0 <= i < n && i != hash(key) % n ==> OfKey(ws[i].keyed.runs, key) == [])
            && (forall i, t :: 0 <= i < n && t in ws[i].tasks && ws[i].tasks[t].key == key ==> i == hash(key) % n)
  {
    PinnedAlways(hash, n, capacity, bs);
    PinnedHome(hash, n, capacity, bs);
    var ws := PinnedAfter(hash, n, capacity, bs).value;
    ActorFromInv(ws[hash(key) % n], key);
    forall i | 0 <= i < n && i != hash(key) % n
      ensures OfKey(ws[i].keyed.runs, key) == []
    {
      StrangerNeverRuns(hash, n, i, ws[i], key);
    }
  }
}
