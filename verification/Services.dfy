/** The services of one context and the handles that keep it alive: when the
    last owning handle goes, every service is shut down exactly once. */
module Services {
  import opened Basics

  /** The type under which the context keeps its task registry. */
  const TASK_REGISTRY: nat := 0

  function Among(services: map<nat, nat>, kinds: set<nat>): set<nat>
    requires kinds <= services.Keys
  {
    set k | k in kinds :: services[k]
  }

  ghost predicate Injective(services: map<nat, nat>) {
    forall k, m :: k in services && m in services && services[k] == services[m] ==> k == m
  }

  /** A service is held in one place only. */
  ghost predicate HeldOnce(services: map<nat, nat>, retired: seq<nat>) {
    && Distinct(retired) && Injective(services)
    && (forall k :: k in services ==> services[k] !in retired)
  }

  function Retired(services: map<nat, nat>, retired: seq<nat>, kind: nat): seq<nat> {
    if kind in services then retired + [services[kind]] else retired
  }

  lemma AmongInserted(services: map<nat, nat>, retired: seq<nat>, kind: nat, s: nat)
    ensures Among(services[kind := s], services.Keys + {kind}) + Elements(Retired(services, retired, kind))
         == Among(services, services.Keys) + Elements(retired) + {s}
  {
    var services', retired' := services[kind := s], Retired(services, retired, kind);
    assert services'[kind] == s;
    assert forall x :: x in retired ==> x in retired';
    forall x | x in Among(services, services.Keys)
      ensures x in Among(services', services.Keys + {kind}) + Elements(retired')
    {
      var k :| k in services && services[k] == x;
      if k == kind {
        assert retired'[|retired|] == x;
      } else {
        assert services'[k] == x;
      }
    }
  }

  lemma InsertedOnce(services: map<nat, nat>, retired: seq<nat>, kind: nat, s: nat)
    requires HeldOnce(services, retired) && s !in Among(services, services.Keys) && s !in retired
    ensures HeldOnce(services[kind := s], Retired(services, retired, kind))
  {
    assert forall k :: k in services ==> services[k] in Among(services, services.Keys);
  }

  /** The services to shut down when those of `kinds` and the retired ones are left. */
  function Pending(services: map<nat, nat>, kinds: set<nat>, retired: seq<nat>): set<nat>
    requires kinds <= services.Keys
  {
    Among(services, kinds) + Elements(retired)
  }

  lemma PendingWithout(services: map<nat, nat>, kinds: set<nat>, retired: seq<nat>, kind: nat)
    requires HeldOnce(services, retired) && kinds <= services.Keys && kind in kinds
    ensures Pending(services, kinds, retired) == Pending(services, kinds - {kind}, retired) + {services[kind]}
    ensures services[kind] !in Pending(services, kinds - {kind}, retired)
  {
    AmongWithout(services, kinds, kind);
  }

  lemma AmongWithout(services: map<nat, nat>, kinds: set<nat>, kind: nat)
    requires Injective(services) && kinds <= services.Keys && kind in kinds
    ensures Among(services, kinds) == Among(services, kinds - {kind}) + {services[kind]}
    ensures services[kind] !in Among(services, kinds - {kind})
  {}

  lemma ElementsTail(s: seq<nat>, i: nat)
    requires Distinct(s) && i < |s|
    ensures Elements(s[i..]) == Elements(s[i + 1..]) + {s[i]} && s[i] !in Elements(s[i + 1..])
  {
    assert s[i..] == [s[i]] + s[i + 1..];
  }

  /** Of `calls` calls of `on_shutdown`, each of which uses up a number of `late`
      and registers that many services, whose calls come first: how many services
      are registered, and the numbers left. */
  function Cascade(calls: nat, late: seq<nat>): (r: (nat, seq<nat>))
    ensures |r.1| <= |late|
    decreases |late|, calls
  {
    if calls == 0 || late == [] then (0, late)
    else
      var (nested, left) := Cascade(late[0], late[1..]);
      var (others, rest) := Cascade(calls - 1, left);
      (late[0] + nested + others, rest)
  }

  function Sum(counts: seq<nat>): nat {
    if counts == [] then 0 else counts[0] + Sum(counts[1..])
  }

  lemma {:induction false} SumParts(counts: seq<nat>, m: nat, n: nat)
    requires m <= n <= |counts|
    ensures Sum(counts[..n]) == Sum(counts[..m]) + Sum(counts[m..n])
  {
    if m == 0 {
      assert counts[..0] == [] && counts[0..n] == counts[..n];
    } else {
      assert counts[..n][1..] == counts[1..][..n - 1] && counts[..m][1..] == counts[1..][..m - 1];
      assert counts[1..][m - 1..n - 1] == counts[m..n];
      SumParts(counts[1..], m - 1, n - 1);
    }
  }

  lemma SumJoined(late: seq<nat>, m: nat, n: nat)
    requires 1 <= m <= n <= |late|
    ensures late[m..][n - m..] == late[n..] && late[1..][m - 1..] == late[m..]
    ensures Sum(late[..n]) == late[0] + Sum(late[1..][..m - 1]) + Sum(late[m..][..n - m])
  {
    SumParts(late, m, n);
    assert late[m..][..n - m] == late[m..n] && late[..m][1..] == late[1..][..m - 1];
  }

  /** The calls use up the first numbers of `late`, one each, the calls of the
      services they register included, as long as there are any; and they register
      what these numbers say. */
  predicate Spent(calls: nat, late: seq<nat>, registered: nat, left: seq<nat>) {
    && |left| <= |late|
    && var used := |late| - |left|;
       left == late[used..] && registered == Sum(late[..used]) && used == Min(|late|, calls + registered)
  }

  lemma SpentJoined(calls: nat, late: seq<nat>, nested: nat, left: seq<nat>, others: nat, rest: seq<nat>)
    requires calls > 0 && late != []
    requires Spent(late[0], late[1..], nested, left) && Spent(calls - 1, left, others, rest)
    ensures Spent(calls, late, late[0] + nested + others, rest)
  {
    SumJoined(late, |late| - |left|, |late| - |rest|);
  }

  lemma {:induction false} CascadeExactly(calls: nat, late: seq<nat>)
    ensures Spent(calls, late, Cascade(calls, late).0, Cascade(calls, late).1)
    decreases |late|, calls
  {
    if calls > 0 && late != [] {
      var (nested, left) := Cascade(late[0], late[1..]);
      var (others, rest) := Cascade(calls - 1, left);
      CascadeExactly(late[0], late[1..]);
      CascadeExactly(calls - 1, left);
      SpentJoined(calls, late, nested, left, others, rest);
    } else {
      assert late[0..] == late && late[..0] == [];
    }
  }

  /** Some calls, and then the others. */
  lemma {:induction false} CascadeSum(calls: nat, more: nat, late: seq<nat>)
    ensures Cascade(calls + more, late)
         == (Cascade(calls, late).0 + Cascade(more, Cascade(calls, late).1).0, Cascade(more, Cascade(calls, late).1).1)
  {
    if calls > 0 && late != [] {
      CascadeSum(calls - 1, more, Cascade(late[0], late[1..]).1);
    }
  }

  /** Of a cascade that is to register `all` services and leave `left`, these calls
      are still to come and `done` services are registered. */
  predicate Cascading(calls: nat, late: seq<nat>, done: int, all: nat, left: seq<nat>) {
    Cascade(calls, late).0 + done == all && Cascade(calls, late).1 == left
  }

  lemma CascadeNext(calls: nat, late: seq<nat>, done: int, all: nat, left: seq<nat>)
    requires calls > 0 && Cascading(calls, late, done, all, left)
    ensures Cascading(calls - 1, Cascade(1, late).1, done + Cascade(1, late).0, all, left)
  {
    CascadeSum(1, calls - 1, late);
  }

  /** Services are numbered as they are registered. `log` lists the services
      whose `on_shutdown` was called, in order. */
  class ServiceContainer {
    var services: map<nat, nat>
    var retired: seq<nat>
    var closed: bool
    var next: nat
    var log: seq<nat>
    /** Each `on_shutdown` registers as many services as the first number here
        says, which is then used up; none when there is no number left. */
    var late: seq<nat>

    /** Every registered service was shut down once, or waits in `pending`. */
    ghost predicate Accounted(pending: set<nat>)
      reads this`log, this`next
    {
      && Distinct(log)
      && (forall s :: s in log ==> s !in pending && s < next)
      && (forall s :: s in pending ==> s < next)
      && (forall s :: 0 <= s < next ==> s in log || s in pending)
    }

    ghost predicate Valid()
      reads this
    {
      if closed then Accounted({})
      else
        && log == [] && HeldOnce(services, retired)
        && Accounted(Pending(services, services.Keys, retired))
    }

    constructor (late: seq<nat>)
      ensures Valid() && !closed && next == 0 && services == map[]
    {
      services, retired, closed, next, log, this.late := map[], [], false, 0, [], late;
    }

    /** The late registrations of this call and of the calls they cause are all
        made and shut down. */
    method OnShutdown(s: nat, ghost pending: set<nat>)
      requires closed && Accounted(pending + {s}) && s !in pending && s !in log && s < next
      modifies this`log, this`next, this`late
      ensures Accounted(pending) && (next - old(next), late) == Cascade(1, old(late))
      ensures s in log && (forall x :: x in old(log) ==> x in log)
      decreases |late|, 0
    {
      log := log + [s];
      if late != [] {
        var count := late[0];
        late := late[1..];
        ghost var (all, left) := Cascade(count, late);
        for i := 0 to count
          invariant Accounted(pending) && next >= old(next) && |late| < |old(late)|
          invariant Cascading(count - i, late, next - old(next) - i, all, left)
          invariant s in log && (forall x :: x in old(log) ==> x in log)
        {
          CascadeNext(count - i, late, next - old(next) - i, all, left);
          var _ := RegisterLate(pending);
        }
      }
    }

    /** The closed branch of `Register`: the service is shut down at once. */
    method RegisterLate(ghost pending: set<nat>) returns (s: nat)
      requires closed && Accounted(pending)
      modifies this`log, this`next, this`late
      ensures Accounted(pending) && (next - old(next) - 1, late) == Cascade(1, old(late))
      ensures s == old(next) && s in log && (forall x :: x in old(log) ==> x in log)
      decreases |late|, 1
    {
      s := next;
      next := next + 1;
      OnShutdown(s, pending);
    }

    /** Registers a service of the type; one it replaces stays alive, retired. */
    method Register(kind: nat) returns (s: nat)
      requires Valid()
      modifies this
      ensures Valid() && closed == old(closed) && next > old(next) && s == old(next)
      ensures if closed then s in log else services == old(services)[kind := s] && next == s + 1
      ensures forall x :: x in old(log) ==> x in log
      ensures closed ==> (next - s - 1, late) == Cascade(1, old(late))
    {
      if closed {
        s := RegisterLate({});
        return;
      }
      s := next;
      next := next + 1;
      AmongInserted(services, retired, kind, s);
      InsertedOnce(services, retired, kind, s);
      assert services[kind := s].Keys == services.Keys + {kind};
      if kind in services {
        retired := retired + [services[kind]];
      }
      services := services[kind := s];
    }

    /** The service registered last under the type, until the context shuts down. */
    method Get(kind: nat) returns (s: Option<nat>)
      ensures s == if !closed && kind in services then Some(services[kind]) else None
    {
      return if closed then None else Lookup(services, kind);
    }

    /** State kept under its own type; dropped silently once closed. */
    method RegisterState(kind: nat)
      requires Valid()
      modifies this
      ensures Valid() && closed == old(closed)
      ensures closed ==> log == old(log) && next == old(next)
      ensures !closed ==> services == old(services)[kind := old(next)] && next == old(next) + 1
    {
      if !closed {
        var _ := Register(kind);
      }
    }

    method ShutdownCurrent()
      requires closed && HeldOnce(services, retired) && Accounted(Pending(services, services.Keys, retired))
      modifies this`log, this`next, this`late
      ensures Accounted(Elements(retired)) && next >= old(next)
      ensures (next - old(next), late) == Cascade(|services|, old(late))
    {
      var kinds := services.Keys;
      ghost var (all, left) := Cascade(|services|, late);
      while kinds != {}
        invariant kinds <= services.Keys && next >= old(next)
        invariant Accounted(Pending(services, kinds, retired))
        invariant Cascading(|kinds|, late, next - old(next), all, left)
      {
        CascadeNext(|kinds|, late, next - old(next), all, left);
        var kind :| kind in kinds;
        ghost var rest := Pending(services, kinds - {kind}, retired);
        PendingWithout(services, kinds, retired, kind);
        kinds := kinds - {kind};
        OnShutdown(services[kind], rest);
      }
    }

    method ShutdownRetired()
      requires closed && Distinct(retired) && Accounted(Elements(retired))
      modifies this`log, this`next, this`late
      ensures Accounted({}) && next >= old(next)
      ensures (next - old(next), late) == Cascade(|retired|, old(late))
    {
      ghost var (all, left) := Cascade(|retired|, late);
      for i := 0 to |retired|
        invariant next >= old(next) && Accounted(Elements(retired[i..]))
        invariant Cascading(|retired| - i, late, next - old(next), all, left)
      {
        CascadeNext(|retired| - i, late, next - old(next), all, left);
        ElementsTail(retired, i);
        OnShutdown(retired[i], Elements(retired[i + 1..]));
      }
    }

    /** Shuts every service down, current ones in any order and then the
        replaced ones; a second call does nothing. */
    method Shutdown()
      requires Valid()
      modifies this
      ensures Valid() && closed && next >= old(next)
      ensures old(closed) ==> log == old(log)
      ensures !old(closed) ==> (next - old(next), late) == Cascade(|old(services)| + |old(retired)|, old(late))
    {
      if closed {
        return;
      }
      closed := true;
      CascadeSum(|services|, |retired|, late);
      ShutdownCurrent();
      ShutdownRetired();
    }
  }

  // ---------- handles

  /** The handles, among the live ones, that own the context. */
  function Owning(handles: map<nat, bool>): set<nat> {
    set h | h in handles && handles[h]
  }

  /** The services of the users are the same. */
  ghost predicate OthersSame(services: map<nat, nat>, before: map<nat, nat>) {
    forall kind :: kind != TASK_REGISTRY ==> Lookup(services, kind) == Lookup(before, kind)
  }

  class Context {
    const services: ServiceContainer
    var owners: nat
    /** Live handles, and whether each owns the context. */
    var handles: map<nat, bool>
    var nextHandle: nat
    /** Task registries closed by draining the tasks. */
    var drained: set<nat>

    ghost predicate Valid()
      reads this, services
    {
      && services.Valid()
      && owners == |Owning(handles)|
      && (services.closed <==> owners == 0)
      && (forall h :: h in handles ==> h < nextHandle)
    }

    constructor (late: seq<nat>)
      ensures Valid() && fresh(services) && !services.closed && services.services == map[]
      ensures handles == map[0 := true] && nextHandle == 1 && drained == {}
    {
      services := new ServiceContainer(late);
      owners, handles, nextHandle, drained := 1, map[0 := true], 1, {};
      assert Owning(map[0 := true]) == {0};
    }

    /** A clone owns the context exactly when the handle it is made from does. */
    method CloneHandle(h: nat) returns (clone: nat)
      requires Valid() && h in handles
      modifies this`owners, this`handles, this`nextHandle
      ensures Valid() && clone == old(nextHandle) && nextHandle == clone + 1
      ensures clone !in old(handles) && handles == old(handles)[clone := old(handles)[h]]
    {
      if handles[h] {
        assert h in Owning(handles);
        owners := owners + 1;
      }
      clone, nextHandle := nextHandle, nextHandle + 1;
      handles := handles[clone := handles[h]];
      assert Owning(handles) == Owning(old(handles)) + if handles[h] then {clone} else {};
    }

    /** A handle made from the engine's callback data does not own the context. */
    method BorrowHandle() returns (h: nat)
      requires Valid()
      modifies this`handles, this`nextHandle
      ensures Valid() && h == old(nextHandle) && nextHandle == h + 1
      ensures h !in old(handles) && handles == old(handles)[h := false]
    {
      h, nextHandle := nextHandle, nextHandle + 1;
      handles := handles[h := false];
      assert Owning(handles) == Owning(old(handles));
    }

    /** Dropping the last owning handle shuts the services down. */
    method DropHandle(h: nat)
      requires Valid() && h in handles
      modifies this`owners, this`handles, services
      ensures Valid() && handles == old(handles) - {h} && services.next >= old(services.next)
      ensures !services.closed ==> services.services == old(services.services)
      ensures services.closed <==> Owning(handles) == {}
      ensures old(services.closed) ==> services.log == old(services.log) && services.next == old(services.next)
    {
      var owned := handles[h];
      handles := handles - {h};
      assert Owning(handles) == Owning(old(handles)) - {h};
      if !owned {
        return;
      }
      assert owners > 0;
      owners := owners - 1;
      if owners == 0 {
        services.Shutdown();
      }
    }

    /** The context's task registry; after shutdown a fresh one that registering
        it has already closed. */
    method TaskRegistry() returns (registry: nat)
      requires Valid()
      modifies services
      ensures Valid() && services.closed == old(services.closed)
      ensures if services.closed then registry in services.log
              else TASK_REGISTRY in services.services && services.services[TASK_REGISTRY] == registry
      ensures forall x :: x in old(services.log) ==> x in services.log
      ensures registry < services.next && services.next >= old(services.next)
      ensures !services.closed && TASK_REGISTRY in old(services.services) ==>
                registry == old(services.services)[TASK_REGISTRY]
      ensures !services.closed && TASK_REGISTRY !in old(services.services) ==> registry == old(services.next)
      ensures !services.closed ==> OthersSame(services.services, old(services.services))
    {
      if !services.closed && TASK_REGISTRY in services.services {
        assert services.services[TASK_REGISTRY] in Among(services.services, services.services.Keys);
        return services.services[TASK_REGISTRY];
      }
      registry := services.Register(TASK_REGISTRY);
    }

    /** Spawns a task unless its registry is closed. */
    method SpawnTask() returns (spawned: bool)
      requires Valid()
      modifies services
      ensures Valid() && services.closed == old(services.closed)
      ensures services.closed ==> !spawned
      ensures services.next >= old(services.next)
      ensures !services.closed ==>
                TASK_REGISTRY in services.services && (spawned <==> services.services[TASK_REGISTRY] !in drained)
      ensures !services.closed && TASK_REGISTRY in old(services.services) ==>
                services.services[TASK_REGISTRY] == old(services.services)[TASK_REGISTRY]
      ensures !services.closed && TASK_REGISTRY !in old(services.services) ==>
                services.services[TASK_REGISTRY] == old(services.next)
      ensures !services.closed ==> OthersSame(services.services, old(services.services))
    {
      var registry := TaskRegistry();
      spawned := registry !in services.log && registry !in drained;
    }

    method ShutdownTasks()
      requires Valid()
      modifies this`drained, services
      ensures Valid() && services.closed == old(services.closed)
      ensures services.next >= old(services.next)
      ensures forall r :: r in drained ==> r in old(drained) || r < services.next
      ensures !services.closed ==> TASK_REGISTRY in services.services && services.services[TASK_REGISTRY] in drained
      ensures !services.closed ==> OthersSame(services.services, old(services.services))
    {
      var registry := TaskRegistry();
      drained := drained + {registry};
    }
  }

  // ---------- whole lives

  /** Kinds here are those of the users; the task registry has its own. */
  datatype Op = Clone(h: nat) | Borrow | Drop(h: nat) | SetService(kind: nat) | SetState(kind: nat) | Find(kind: nat)
              | Spawn | DrainTasks

  /** What an operation gave back: the number of the service or state it set, the
      one it found, or whether a task was spawned. */
  datatype Result = Nothing | Gave(service: nat) | Found(found: Option<nat>) | Spawned(ok: bool)

  /** Live handles, and the number of the next one. */
  datatype Handles = Handles(live: map<nat, bool>, next: nat)

  /** A borrowed handle needs the context to be in memory. */
  function HandlesAfter(ops: seq<Op>): Handles {
    if ops == [] then Handles(map[0 := true], 1)
    else
      var hs := HandlesAfter(ops[..|ops| - 1]);
      match ops[|ops| - 1]
      case Clone(h) => if h in hs.live then Handles(hs.live[hs.next := hs.live[h]], hs.next + 1) else hs
      case Borrow => if hs.live != map[] then Handles(hs.live[hs.next := false], hs.next + 1) else hs
      case Drop(h) => hs.(live := hs.live - {h})
      case _ => hs
  }

  predicate Alive(ops: seq<Op>) {
    Owning(HandlesAfter(ops).live) != {}
  }

  predicate Sets(op: Op, kind: nat) {
    op == SetService(kind) || op == SetState(kind)
  }

  /** The service or state set last under the type. */
  function LastSet(ops: seq<Op>, results: seq<Result>, kind: nat): Option<nat>
    requires |ops| == |results|
  {
    if ops == [] then None
    else
      var n := |ops| - 1;
      if Sets(ops[n], kind) && results[n].Gave? then Some(results[n].service) else LastSet(ops[..n], results[..n], kind)
  }

  /** Services set get rising numbers below `registered`, state only while an owning
      handle is left; until then the one set last under a type is found; and a task
      is spawned exactly while an owning handle is left and the tasks were not
      drained. */
  ghost predicate ResultsRight(ops: seq<Op>, results: seq<Result>, registered: nat) {
    && |results| == |ops|
    && (forall i :: 0 <= i < |ops| && ops[i].SetService? ==> results[i].Gave?)
    && (forall i :: 0 <= i < |ops| && ops[i].SetState? ==> (results[i].Gave? <==> Alive(ops[..i])))
    && (forall i :: 0 <= i < |ops| && ops[i].Find? ==>
          results[i] == Found(if Alive(ops[..i]) then LastSet(ops[..i], results[..i], ops[i].kind) else None))
    && (forall i :: 0 <= i < |ops| && results[i].Gave? ==> results[i].service < registered)
    && (forall i, j :: 0 <= i < j < |ops| && results[i].Gave? && results[j].Gave? ==>
          results[i].service < results[j].service)
    && (forall i :: 0 <= i < |ops| && ops[i].Spawn? ==>
          results[i] == Spawned(Alive(ops[..i]) && DrainTasks !in ops[..i]))
  }

  /** What was set last is what is kept. */
  ghost predicate Kept(services: map<nat, nat>, ops: seq<Op>, results: seq<Result>)
    requires |ops| == |results|
  {
    forall kind: nat :: Lookup(services, kind + 1) == LastSet(ops, results, kind)
  }

  /** The context agrees with the operations so far. */
  ghost predicate Follows(c: Context, ops: seq<Op>, results: seq<Result>)
    requires |ops| == |results|
    reads c, c.services
  {
    && c.Valid() && HandlesAfter(ops) == Handles(c.handles, c.nextHandle)
    && (forall r :: r in c.drained ==> r < c.services.next)
    && (!c.services.closed ==> (DrainTasks in ops <==>
          TASK_REGISTRY in c.services.services && c.services.services[TASK_REGISTRY] in c.drained))
    && (!c.services.closed ==> Kept(c.services.services, ops, results))
  }

  lemma OpsPush(ops: seq<Op>, op: Op)
    ensures (ops + [op])[..|ops|] == ops && (ops + [op])[|ops|] == op
    ensures DrainTasks in ops + [op] <==> DrainTasks in ops || op == DrainTasks
  {}

  lemma LastSetPush(ops: seq<Op>, results: seq<Result>, op: Op, r: Result, kind: nat)
    requires |ops| == |results|
    ensures LastSet(ops + [op], results + [r], kind)
         == if Sets(op, kind) && r.Gave? then Some(r.service) else LastSet(ops, results, kind)
  {
    assert (ops + [op])[..|ops|] == ops && (results + [r])[..|results|] == results;
  }

  lemma KeptPush(services: map<nat, nat>, services': map<nat, nat>, ops: seq<Op>, results: seq<Result>, op: Op,
                 r: Result)
    requires |ops| == |results| && Kept(services, ops, results)
    requires if (op.SetService? || op.SetState?) && r.Gave? then services' == services[op.kind + 1 := r.service]
             else OthersSame(services', services)
    ensures Kept(services', ops + [op], results + [r])
  {
    forall kind: nat
      ensures Lookup(services', kind + 1) == LastSet(ops + [op], results + [r], kind)
    {
      LastSetPush(ops, results, op, r, kind);
      var key: nat := kind + 1;
      assert Lookup(services, kind + 1) == LastSet(ops, results, kind);
      if (op.SetService? || op.SetState?) && r.Gave? {
        assert Lookup(services', key) == if key == op.kind + 1 then Some(r.service) else Lookup(services, key);
      } else {
        assert Lookup(services', key) == Lookup(services, key);
      }
    }
  }

  /** What an operation is to give back. */
  ghost predicate ResultRight(ops: seq<Op>, results: seq<Result>, op: Op, r: Result)
    requires |ops| == |results|
  {
    && (op.SetService? ==> r.Gave?)
    && (op.SetState? ==> (r.Gave? <==> Alive(ops)))
    && (op.Find? ==> r == Found(if Alive(ops) then LastSet(ops, results, op.kind) else None))
    && (op.Spawn? ==> r == Spawned(Alive(ops) && DrainTasks !in ops))
  }

  method Perform(c: Context, op: Op, ghost ops: seq<Op>, ghost results: seq<Result>) returns (result: Result)
    requires |ops| == |results| && Follows(c, ops, results)
    modifies c, c.services
    ensures Follows(c, ops + [op], results + [result]) && c.services.next >= old(c.services.next)
    ensures ResultRight(ops, results, op, result)
    ensures result.Gave? ==> old(c.services.next) <= result.service < c.services.next
  {
    OpsPush(ops, op);
    result := Nothing;
    match op {
      case Clone(h) => if h in c.handles { var _ := c.CloneHandle(h); }
      case Borrow => if c.handles != map[] { var _ := c.BorrowHandle(); }
      case Drop(h) => if h in c.handles { c.DropHandle(h); }
      case SetService(kind) =>
        var s := c.services.Register(kind + 1);
        result := Gave(s);
      case SetState(kind) =>
        if !c.services.closed {
          result := Gave(c.services.next);
        }
        c.services.RegisterState(kind + 1);
      case Find(kind) =>
        var found := c.services.Get(kind + 1);
        result := Found(found);
      case Spawn =>
        var spawned := c.SpawnTask();
        result := Spawned(spawned);
      case DrainTasks => c.ShutdownTasks();
    }
    if !c.services.closed {
      KeptPush(old(c.services.services), c.services.services, ops, results, op, result);
    }
  }

  lemma ResultsPush(ops: seq<Op>, results: seq<Result>, registered: nat, op: Op, r: Result, registered': nat)
    requires ResultsRight(ops, results, registered) && registered <= registered'
    requires ResultRight(ops, results, op, r)
    requires r.Gave? ==> registered <= r.service < registered'
    ensures ResultsRight(ops + [op], results + [r], registered')
  {
    assert forall k :: 0 <= k <= |ops| ==> (ops + [op])[..k] == ops[..k] && (results + [r])[..k] == results[..k];
    assert ops[..|ops|] == ops && results[..|ops|] == results;
  }

  /** Any life of a context: however handles are cloned, borrowed and dropped and
      whatever is registered or replaced, before, during or after shutdown. While
      an owning handle is left no service is shut down; after that every service
      ever registered has been, once, and no task is spawned. */
  method Life(ops: seq<Op>, late: seq<nat>) returns (log: seq<nat>, registered: nat, results: seq<Result>)
    ensures ResultsRight(ops, results, registered)
    ensures Alive(ops) ==> log == []
    ensures !Alive(ops) ==> Distinct(log) && forall s :: s in log <==> 0 <= s < registered
  {
    var c := new Context(late);
    results := [];
    assert ops[..0] == [];
    for i := 0 to |ops|
      invariant |results| == i && fresh(c) && fresh(c.services) && Follows(c, ops[..i], results)
      invariant ResultsRight(ops[..i], results, c.services.next)
    {
      assert ops[..i + 1] == ops[..i] + [ops[i]];
      ghost var before := c.services.next;
      var r := Perform(c, ops[i], ops[..i], results);
      ResultsPush(ops[..i], results, before, ops[i], r, c.services.next);
      results := results + [r];
    }
    assert ops[..|ops|] == ops;
    log, registered := c.services.log, c.services.next;
  }
}
