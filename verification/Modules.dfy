/** The registry of built-in modules: which modules a request brings along, and
    their initialisation, which may fail part way. */
module Modules {
  import opened Basics

  datatype Module<N> = Module(name: N, deps: seq<N>)

  /** Modules by position. A mask of modules is the set of its bit positions. */
  type Registry<N> = seq<Module<N>>

  /** The position of the first module of the name. */
  function Find<N(==)>(reg: Registry<N>, name: N): (r: Option<nat>)
    ensures r.Some? ==> r.value < |reg| && reg[r.value].name == name
    ensures r.None? ==> forall i :: 0 <= i < |reg| ==> reg[i].name != name
  {
    if reg == [] then None
    else if reg[0].name == name then Some(0)
    else
      var rest := Find(reg[1..], name);
      if rest.None? then None else Some(rest.value + 1)
  }

  predicate HasDeps<N(==)>(reg: Registry<N>, i: nat, mask: set<nat>)
    requires i < |reg|
  {
    forall d :: d in reg[i].deps ==> Find(reg, d).Some? && Find(reg, d).value in mask
  }

  /** With every module it has, the mask has the modules that one depends on. */
  predicate Closed<N(==)>(reg: Registry<N>, mask: set<nat>) {
    forall i :: i in mask ==> i < |reg| && HasDeps(reg, i, mask)
  }

  ghost predicate Asks<N(!new)>(reg: Registry<N>, requested: seq<N>, mask: set<nat>) {
    forall n :: n in requested ==> Find(reg, n).Some? && Find(reg, n).value in mask
  }

  predicate Within(mask: set<nat>, n: nat) {
    forall i :: i in mask ==> i < n
  }

  ghost function Positions(n: nat): (r: set<nat>)
    ensures forall j :: j in r <==> 0 <= j < n
  {
    if n == 0 then {} else Positions(n - 1) + {n - 1}
  }

  datatype Resolved = Mask(modules: set<nat>) | Missing | InvalidRegistry

  /** Adds the modules a selected module depends on. */
  method AddDependencies<N(==,!new)>(reg: Registry<N>, index: nat, before: set<nat>)
    returns (ok: bool, selected: set<nat>)
    requires index < |reg| && index in before && Within(before, |reg|)
    ensures before <= selected && Within(selected, |reg|)
    ensures ok ==> HasDeps(reg, index, selected)
    ensures forall s :: before <= s && Closed(reg, s) ==> ok && selected <= s
  {
    selected := before;
    var deps := reg[index].deps;
    for i := 0 to |deps|
      invariant before <= selected && Within(selected, |reg|)
      invariant forall k :: 0 <= k < i ==> Find(reg, deps[k]).Some? && Find(reg, deps[k]).value in selected
      invariant forall s :: before <= s && Closed(reg, s) ==> selected <= s
    {
      var d := Find(reg, deps[i]);
      assert forall s :: before <= s && Closed(reg, s) ==> HasDeps(reg, index, s);
      assert deps[i] in deps;
      if d.None? {
        return false, selected;
      }
      selected := selected + {d.value};
    }
    ok := true;
  }

  /** One pass over the registry: what it adds, every closed mask has. */
  method Pass<N(==,!new)>(reg: Registry<N>, before: set<nat>) returns (ok: bool, selected: set<nat>)
    requires Within(before, |reg|)
    ensures before <= selected
    ensures forall s :: before <= s && Closed(reg, s) ==> ok && selected <= s
    ensures ok && selected == before ==> Closed(reg, selected)
    ensures Within(selected, |reg|)
  {
    selected := before;
    for index := 0 to |reg|
      invariant before <= selected && Within(selected, |reg|)
      invariant forall s :: before <= s && Closed(reg, s) ==> selected <= s
      invariant forall i :: 0 <= i < index && i in before ==> HasDeps(reg, i, selected)
    {
      if index in selected {
        var added;
        ok, added := AddDependencies(reg, index, selected);
        if !ok {
          return;
        }
        selected := added;
      }
    }
    ok := true;
  }

  /** The least mask that has the requested modules and is closed; an error if a
      name is unknown, or if no such mask exists. */
  method ResolveModuleMask<N(==,!new)>(reg: Registry<N>, requested: seq<N>) returns (r: Resolved)
    ensures r.Missing? <==> exists n :: n in requested && Find(reg, n).None?
    ensures r.Mask? ==> Asks(reg, requested, r.modules) && Closed(reg, r.modules)
    ensures r.Mask? ==> forall s :: Asks(reg, requested, s) && Closed(reg, s) ==> r.modules <= s
    ensures r.InvalidRegistry? ==> forall s :: Asks(reg, requested, s) ==> !Closed(reg, s)
  {
    var selected: set<nat>, missing := {}, false;
    for i := 0 to |requested|
      invariant missing <==> exists k :: 0 <= k < i && Find(reg, requested[k]).None?
      invariant forall k :: 0 <= k < i && Find(reg, requested[k]).Some? ==> Find(reg, requested[k]).value in selected
      invariant forall s :: Asks(reg, requested, s) ==> selected <= s
      invariant Within(selected, |reg|)
    {
      var index := Find(reg, requested[i]);
      assert requested[i] in requested;
      if index.Some? {
        selected := selected + {index.value};
      } else {
        missing := true;
      }
    }
    if missing {
      return Missing;
    }
    while true
      invariant Asks(reg, requested, selected) && Within(selected, |reg|)
      invariant forall s :: Asks(reg, requested, s) && Closed(reg, s) ==> selected <= s
      decreases Positions(|reg|) - selected
    {
      var previous := selected;
      var ok;
      ok, selected := Pass(reg, previous);
      if !ok {
        return InvalidRegistry;
      }
      if selected == previous {
        break;
      }
      assert exists j :: j in selected && j !in previous;
    }
    return Mask(selected);
  }

  // ---------- initialisation

  /** A run of a module's initialiser. */
  datatype Run = Run(index: nat, ok: bool)

  /** Modules stand after the modules they depend on. */
  ghost predicate Ordered<N>(reg: Registry<N>) {
    forall i, j :: 0 <= i < |reg| && 0 <= j < |reg| && reg[j].name in reg[i].deps ==> j < i
  }

  predicate Succeeded(runs: seq<Run>, i: nat) {
    Run(i, true) in runs
  }

  /** Every initialiser ran after its dependencies had succeeded, and none ran
      again after it had. */
  ghost predicate RunsOk<N>(reg: Registry<N>, runs: seq<Run>) {
    forall k :: 0 <= k < |runs| ==>
      && runs[k].index < |reg| && !Succeeded(runs[..k], runs[k].index)
      && forall d :: d in reg[runs[k].index].deps ==> Find(reg, d).Some? && Succeeded(runs[..k], Find(reg, d).value)
  }

  // ---------- one call of `init`

  /** The names asked for, and which initialisers fail in this call. */
  datatype Call<N> = Call(requested: seq<N>, fails: nat -> bool)

  /** The least closed mask that has what is asked for. */
  ghost predicate Least<N(!new)>(reg: Registry<N>, requested: seq<N>, mask: set<nat>) {
    && Asks(reg, requested, mask) && Closed(reg, mask)
    && forall s :: Asks(reg, requested, s) && Closed(reg, s) ==> mask <= s
  }

  ghost predicate Unresolvable<N(!new)>(reg: Registry<N>, requested: seq<N>) {
    forall s :: Asks(reg, requested, s) ==> !Closed(reg, s)
  }

  /** The runs are of selected modules that were not initialised, in registry
      order and as their initialisers go, and only the last one may have failed. */
  predicate RunsInOrder(selected: set<nat>, fails: nat -> bool, before: set<nat>, runs: seq<Run>) {
    && (forall k :: 0 <= k < |runs| ==>
          runs[k].ok == !fails(runs[k].index) && runs[k].index in selected && runs[k].index !in before)
    && (forall k, l :: 0 <= k < l < |runs| ==> runs[k].index < runs[l].index)
    && (forall k :: 0 <= k < |runs| - 1 ==> runs[k].ok)
  }

  /** `before` with the modules whose runs succeeded. */
  ghost predicate Extended(before: set<nat>, after: set<nat>, runs: seq<Run>) {
    forall i: nat :: i in after <==> i in before || Succeeded(runs, i)
  }

  /** Up to `index` all went well. */
  ghost predicate Sweeping(selected: set<nat>, fails: nat -> bool, before: set<nat>, after: set<nat>, runs: seq<Run>,
                           index: nat)
  {
    && RunsInOrder(selected, fails, before, runs) && Extended(before, after, runs)
    && (forall k :: 0 <= k < |runs| ==> runs[k].ok && runs[k].index < index)
    && (forall i :: 0 <= i < index && i in selected ==> i in after)
  }

  /** All selected modules were initialised, or those before the one that failed. */
  ghost predicate Sweeps(selected: set<nat>, fails: nat -> bool, before: set<nat>, after: set<nat>, runs: seq<Run>,
                         ok: bool)
  {
    && RunsInOrder(selected, fails, before, runs) && Extended(before, after, runs)
    && (ok <==> runs == [] || runs[|runs| - 1].ok)
    && (ok ==> selected <= after)
    && (!ok ==> forall i :: i in selected && i < runs[|runs| - 1].index ==> i in after)
  }

  /** What a call does: nothing if the request cannot be resolved, otherwise it
      initialises exactly what the least mask adds. */
  ghost predicate CallRight<N(!new)>(reg: Registry<N>, call: Call<N>, before: set<nat>, after: set<nat>,
                                     runs: seq<Run>, ok: bool)
  {
    || (Unresolvable(reg, call.requested) && !ok && after == before && runs == [])
    || (exists mask :: Least(reg, call.requested, mask) && Sweeps(mask, call.fails, before, after, runs, ok))
  }

  /** Every mask that satisfies the request has the module. */
  ghost predicate Needs<N(!new)>(reg: Registry<N>, requested: seq<N>, i: nat) {
    forall s :: Asks(reg, requested, s) && Closed(reg, s) ==> i in s
  }

  /** A call initialises only what it needs, all of it if it succeeds, and it
      does succeed if it can be resolved and nothing fails. */
  lemma {:induction false} CallDoes<N(!new)>(reg: Registry<N>, call: Call<N>, before: set<nat>, after: set<nat>,
                                             runs: seq<Run>, ok: bool)
    requires CallRight(reg, call, before, after, runs, ok)
    ensures before <= after && (ok ==> Asks(reg, call.requested, after))
    ensures forall i :: i in after && i !in before ==> Needs(reg, call.requested, i)
    ensures !Unresolvable(reg, call.requested) && (forall i :: !call.fails(i)) ==> ok
  {
    if exists mask :: Least(reg, call.requested, mask) && Sweeps(mask, call.fails, before, after, runs, ok) {
      var mask :| Least(reg, call.requested, mask) && Sweeps(mask, call.fails, before, after, runs, ok);
      forall i | i in after && i !in before
        ensures Needs(reg, call.requested, i)
      {
        assert i in mask;
      }
    }
  }

  /** In registry order the dependencies of the next module have all succeeded. */
  lemma Extend<N(!new)>(reg: Registry<N>, runs: seq<Run>, initialized: set<nat>, selected: set<nat>, index: nat,
                        ok: bool)
    requires Ordered(reg) && RunsOk(reg, runs) && Closed(reg, initialized) && Closed(reg, selected)
    requires forall i: nat :: i in initialized <==> Succeeded(runs, i)
    requires index < |reg| && index in selected && index !in initialized
    requires forall i :: 0 <= i < index && i in selected ==> i in initialized
    ensures RunsOk(reg, runs + [Run(index, ok)]) && HasDeps(reg, index, initialized)
  {
    var runs' := runs + [Run(index, ok)];
    assert HasDeps(reg, index, selected);
    forall k | 0 <= k < |runs'|
      ensures runs'[..k] == if k < |runs| then runs[..k] else runs
    {}
  }

  lemma SweepOne(selected: set<nat>, fails: nat -> bool, before: set<nat>, after: set<nat>, runs: seq<Run>, index: nat)
    requires Sweeping(selected, fails, before, after, runs, index) && index in selected && index !in after
    ensures var runs' := runs + [Run(index, !fails(index))];
            if fails(index) then Sweeps(selected, fails, before, after, runs', false)
            else Sweeping(selected, fails, before, after + {index}, runs', index + 1)
  {
    var runs' := runs + [Run(index, !fails(index))];
    assert forall i :: Succeeded(runs', i) <==> Succeeded(runs, i) || (i == index && !fails(index));
  }

  lemma SweepEnds(selected: set<nat>, fails: nat -> bool, before: set<nat>, after: set<nat>, runs: seq<Run>, n: nat)
    requires Sweeping(selected, fails, before, after, runs, n) && Within(selected, n)
    ensures Sweeps(selected, fails, before, after, runs, true)
  {
  }

  /** The initialised modules are closed under dependencies and are those whose
      initialiser succeeded, which it did after those of its dependencies and once. */
  ghost predicate ContextOk<N>(reg: Registry<N>, initialized: set<nat>, runs: seq<Run>) {
    && Closed(reg, initialized) && RunsOk(reg, runs)
    && (forall i: nat :: i in initialized <==> Succeeded(runs, i))
  }

  class Context<N(==,!new)> {
    const reg: Registry<N>
    var initialized: set<nat>
    var runs: seq<Run>

    ghost predicate Valid()
      reads this
    {
      ContextOk(reg, initialized, runs)
    }

    constructor (reg: Registry<N>)
      ensures Valid() && this.reg == reg && initialized == {} && runs == []
    {
      this.reg, initialized, runs := reg, {}, [];
    }

    /** Runs one initialiser. */
    method InitOne(index: nat, ghost selected: set<nat>, fails: nat -> bool, ghost before: set<nat>, added: seq<Run>)
      returns (added': seq<Run>)
      requires Valid() && Ordered(reg) && Closed(reg, selected) && index in selected && index !in initialized
      requires Sweeping(selected, fails, before, initialized, added, index)
      modifies this
      ensures Valid() && runs == old(runs) + [Run(index, !fails(index))]
      ensures added' == added + [Run(index, !fails(index))]
      ensures if fails(index) then Sweeps(selected, fails, before, initialized, added', false)
              else Sweeping(selected, fails, before, initialized, added', index + 1)
    {
      Extend(reg, runs, initialized, selected, index, !fails(index));
      SweepOne(selected, fails, before, initialized, added, index);
      runs, added' := runs + [Run(index, !fails(index))], added + [Run(index, !fails(index))];
      if !fails(index) {
        initialized := initialized + {index};
      }
    }

    /** Initialises the selected modules in registry order, up to the first that fails. */
    method InitSelected(selected: set<nat>, fails: nat -> bool) returns (ok: bool, added: seq<Run>)
      requires Valid() && Ordered(reg) && Closed(reg, selected)
      modifies this
      ensures Valid() && runs == old(runs) + added
      ensures Sweeps(selected, fails, old(initialized), initialized, added, ok)
    {
      added := [];
      for index := 0 to |reg|
        invariant Valid() && runs == old(runs) + added
        invariant Sweeping(selected, fails, old(initialized), initialized, added, index)
      {
        if index in selected && index !in initialized {
          Associative(old(runs), added, [Run(index, !fails(index))]);
          added := InitOne(index, selected, fails, old(initialized), added);
          if fails(index) {
            return false, added;
          }
        }
      }
      SweepEnds(selected, fails, old(initialized), initialized, added, |reg|);
      ok := true;
    }

    /** Initialises the requested modules and what they depend on. */
    method Init(call: Call<N>) returns (ok: bool, added: seq<Run>)
      requires Valid() && Ordered(reg)
      modifies this
      ensures Valid() && runs == old(runs) + added
      ensures CallRight(reg, call, old(initialized), initialized, added, ok)
    {
      var resolved := ResolveModuleMask(reg, call.requested);
      if !resolved.Mask? {
        return false, [];
      }
      ok, added := InitSelected(resolved.modules, call.fails);
      assert Least(reg, call.requested, resolved.modules);
    }
  }

  // ---------- many calls

  /** What came of a call: the runs it made, and the modules initialised after it. */
  datatype Made = Made(ok: bool, runs: seq<Run>, initialized: set<nat>)

  function InitializedAfter(made: seq<Made>): set<nat> {
    if made == [] then {} else made[|made| - 1].initialized
  }

  function AllRuns(made: seq<Made>): seq<Run> {
    if made == [] then [] else AllRuns(made[..|made| - 1]) + made[|made| - 1].runs
  }

  /** Each call did what it should to what the calls before it left. */
  ghost predicate Traced<N(!new)>(reg: Registry<N>, calls: seq<Call<N>>, made: seq<Made>)
    requires |made| == |calls|
  {
    made != [] ==>
      var n := |made| - 1;
      && Traced(reg, calls[..n], made[..n])
      && CallRight(reg, calls[n], InitializedAfter(made[..n]), made[n].initialized, made[n].runs, made[n].ok)
  }

  ghost predicate NeededBySome<N(!new)>(reg: Registry<N>, calls: seq<Call<N>>, i: nat) {
    exists k :: 0 <= k < |calls| && Needs(reg, calls[k].requested, i)
  }

  /** Whatever is initialised was needed by some call. */
  ghost predicate AllNeeded<N(!new)>(reg: Registry<N>, calls: seq<Call<N>>, initialized: set<nat>) {
    forall i :: i in initialized ==> NeededBySome(reg, calls, i)
  }

  /** The requests of the calls that succeeded are all initialised. */
  ghost predicate AllServed<N(!new)>(reg: Registry<N>, calls: seq<Call<N>>, made: seq<Made>, initialized: set<nat>)
    requires |made| == |calls|
  {
    forall k :: 0 <= k < |calls| && made[k].ok ==> Asks(reg, calls[k].requested, initialized)
  }

  lemma NeededMore<N(!new)>(reg: Registry<N>, calls: seq<Call<N>>, i: nat)
    requires calls != []
    requires NeededBySome(reg, calls[..|calls| - 1], i) || Needs(reg, calls[|calls| - 1].requested, i)
    ensures NeededBySome(reg, calls, i)
  {
    if NeededBySome(reg, calls[..|calls| - 1], i) {
      var k :| 0 <= k < |calls| - 1 && Needs(reg, calls[..|calls| - 1][k].requested, i);
      assert calls[k] == calls[..|calls| - 1][k];
    }
  }

  lemma AllNeededMore<N(!new)>(reg: Registry<N>, calls: seq<Call<N>>, before: set<nat>, after: set<nat>)
    requires calls != [] && AllNeeded(reg, calls[..|calls| - 1], before)
    requires forall i :: i in after && i !in before ==> Needs(reg, calls[|calls| - 1].requested, i)
    ensures AllNeeded(reg, calls, after)
  {
    forall i | i in after
      ensures NeededBySome(reg, calls, i)
    {
      NeededMore(reg, calls, i);
    }
  }

  lemma AsksMore<N(!new)>(reg: Registry<N>, requested: seq<N>, before: set<nat>, after: set<nat>)
    requires Asks(reg, requested, before) && before <= after
    ensures Asks(reg, requested, after)
  {
  }

  lemma AllServedMore<N(!new)>(reg: Registry<N>, calls: seq<Call<N>>, made: seq<Made>, before: set<nat>,
                               after: set<nat>)
    requires |made| == |calls| > 0 && before <= after
    requires AllServed(reg, calls[..|calls| - 1], made[..|calls| - 1], before)
    requires made[|calls| - 1].ok ==> Asks(reg, calls[|calls| - 1].requested, after)
    ensures AllServed(reg, calls, made, after)
  {
    forall k | 0 <= k < |calls| && made[k].ok
      ensures Asks(reg, calls[k].requested, after)
    {
      if k < |calls| - 1 {
        assert made[..|calls| - 1][k] == made[k] && calls[..|calls| - 1][k] == calls[k];
        AsksMore(reg, calls[k].requested, before, after);
      }
    }
  }

  lemma {:induction false} TraceDoes<N(!new)>(reg: Registry<N>, calls: seq<Call<N>>, made: seq<Made>)
    requires |made| == |calls| && Traced(reg, calls, made)
    ensures AllNeeded(reg, calls, InitializedAfter(made)) && AllServed(reg, calls, made, InitializedAfter(made))
  {
    if made != [] {
      var n := |made| - 1;
      var before, after := InitializedAfter(made[..n]), made[n].initialized;
      TraceDoes(reg, calls[..n], made[..n]);
      CallDoes(reg, calls[n], before, after, made[n].runs, made[n].ok);
      AllNeededMore(reg, calls, before, after);
      AllServedMore(reg, calls, made, before, after);
    }
  }

  lemma TracedPush<N(!new)>(reg: Registry<N>, calls: seq<Call<N>>, made: seq<Made>, call: Call<N>, m: Made)
    requires |made| == |calls| && Traced(reg, calls, made)
    requires CallRight(reg, call, InitializedAfter(made), m.initialized, m.runs, m.ok)
    ensures Traced(reg, calls + [call], made + [m])
    ensures InitializedAfter(made + [m]) == m.initialized && AllRuns(made + [m]) == AllRuns(made) + m.runs
  {
    assert (made + [m])[..|made|] == made && (calls + [call])[..|calls|] == calls;
  }

  method MakeCalls<N(==,!new)>(reg: Registry<N>, calls: seq<Call<N>>) returns (made: seq<Made>)
    requires Ordered(reg)
    ensures |made| == |calls| && Traced(reg, calls, made)
    ensures ContextOk(reg, InitializedAfter(made), AllRuns(made))
  {
    var c := new Context(reg);
    made := [];
    for k := 0 to |calls|
      invariant c.Valid() && c.reg == reg && fresh(c)
      invariant |made| == k && Traced(reg, calls[..k], made)
      invariant c.initialized == InitializedAfter(made) && c.runs == AllRuns(made)
    {
      assert calls[..k + 1] == calls[..k] + [calls[k]];
      var ok, added := c.Init(calls[k]);
      var m := Made(ok, added, c.initialized);
      TracedPush(reg, calls[..k], made, calls[k], m);
      made := made + [m];
    }
    assert calls[..|calls|] == calls;
  }

  /** Any sequence of calls on one context, failing anywhere. Each does what it
      should; the initialised modules stay closed under dependencies, every
      initialiser runs only after its dependencies succeeded and each succeeds at
      most once; a module is initialised only if some call needs it, and the
      requests that succeeded stay initialised. */
  method InitOverAndOver<N(==,!new)>(reg: Registry<N>, calls: seq<Call<N>>) returns (made: seq<Made>)
    requires Ordered(reg)
    ensures |made| == |calls| && Traced(reg, calls, made)
    ensures ContextOk(reg, InitializedAfter(made), AllRuns(made))
    ensures AllNeeded(reg, calls, InitializedAfter(made)) && AllServed(reg, calls, made, InitializedAfter(made))
  {
    made := MakeCalls(reg, calls);
    TraceDoes(reg, calls, made);
  }

  // ---------- the modules of the host

  datatype Name =
    | Timer | Cron | Event | Exception | Abort | Encoding | Console | Url | Buffer | Streams | Compression | Command
    | Http | Assert | Fs | Storage | Redis | Sqlite | Crypto | Worker | S3

  const CATALOG: Registry<Name> :=
    [Module(Timer, []), Module(Cron, []), Module(Event, []), Module(Exception, []), Module(Abort, []),
     Module(Encoding, []), Module(Console, []), Module(Url, []), Module(Buffer, []), Module(Streams, [Abort]),
     Module(Compression, []), Module(Command, [Abort, Buffer, Encoding, Streams]),
     Module(Http, [Abort, Exception, Buffer, Url, Streams]), Module(Assert, []),
     Module(Fs, [Abort, Exception, Streams]), Module(Storage, []), Module(Redis, [Abort]), Module(Sqlite, []),
     Module(Crypto, []), Module(Worker, []), Module(S3, [])]

  /** The catalog without the modules a build leaves out. */
  function Compiled(catalog: Registry<Name>, enabled: set<Name>): Registry<Name> {
    if catalog == [] then []
    else
      var rest := Compiled(catalog[..|catalog| - 1], enabled);
      if catalog[|catalog| - 1].name in enabled then rest + [catalog[|catalog| - 1]] else rest
  }

  lemma {:induction false} CompiledFrom(catalog: Registry<Name>, enabled: set<Name>)
    ensures forall m :: m in Compiled(catalog, enabled) ==> m in catalog
    ensures Ordered(catalog) ==> Ordered(Compiled(catalog, enabled))
  {
    if catalog != [] {
      var last := catalog[|catalog| - 1];
      CompiledFrom(catalog[..|catalog| - 1], enabled);
      if Ordered(catalog) {
        forall m | m in catalog
          ensures last.name !in m.deps
        {
          var i :| 0 <= i < |catalog| && catalog[i] == m;
        }
      }
    }
  }

  /** The position of a module in the catalog. */
  function Rank(n: Name): nat {
    match n
    case Timer => 0 case Cron => 1 case Event => 2 case Exception => 3 case Abort => 4 case Encoding => 5
    case Console => 6 case Url => 7 case Buffer => 8 case Streams => 9 case Compression => 10 case Command => 11
    case Http => 12 case Assert => 13 case Fs => 14 case Storage => 15 case Redis => 16 case Sqlite => 17
    case Crypto => 18 case Worker => 19 case S3 => 20
  }

  lemma CatalogRanks(i: nat)
    requires i < |CATALOG|
    ensures Rank(CATALOG[i].name) == i && forall d :: d in CATALOG[i].deps ==> Rank(d) < i
  {}

  lemma CatalogOrdered()
    ensures Ordered(CATALOG) && |CATALOG| <= 64
  {
    forall i, j | 0 <= i < |CATALOG| && 0 <= j < |CATALOG| && CATALOG[j].name in CATALOG[i].deps
      ensures j < i
    {
      CatalogRanks(i);
      CatalogRanks(j);
    }
  }

  /** Whatever modules a build enables, its registry is in dependency-first order. */
  lemma BuildsOrdered(enabled: set<Name>)
    ensures Ordered(Compiled(CATALOG, enabled))
  {
    CatalogOrdered();
    CompiledFrom(CATALOG, enabled);
  }
}
