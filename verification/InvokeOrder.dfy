/** Which item of the invoke queue runs next, said of what was received, executed
    and superseded so far. */
module InvokeOrder {
  import opened Basics
  import opened InvokeQueue

  // ---------- priorities

  /** What the next take executes. */
  function Next(steps: seq<Step>): Item
    requires CanRun(steps) && CanRun(steps + [Take]) && After(steps + [Take]).executed != []
  {
    var executed := After(steps + [Take]).executed;
    executed[|executed| - 1]
  }

  /** A take executes one item more. */
  lemma {:induction false} TakeExecutes(steps: seq<Step>)
    requires CanRun(steps) && !SimpleEmpty(After(steps))
    ensures CanRun(steps + [Take]) && |After(steps + [Take]).executed| == |After(steps).executed| + 1
    ensures After(steps + [Take]).executed == After(steps).executed + [Next(steps)]
    ensures After(steps + [Take]).received == After(steps).received
  {
    AfterTake(steps);
  }

  /** A normal item runs only when every high item received has run, and an event
      only when every high and every normal item has. */
  lemma {:induction false} PriorityFirst(steps: seq<Step>)
    requires CanRun(steps) && !SimpleEmpty(After(steps))
    ensures CanRun(steps + [Take]) && After(steps + [Take]).executed != []
    ensures var q, x := After(steps + [Take]), Next(steps);
            && (!x.priority.High? ==> OfPriority(q.executed, High) == OfPriority(q.received, High))
            && (x.priority.Event? ==> OfPriority(q.executed, Normal) == OfPriority(q.received, Normal))
  {
    TakeExecutes(steps);
    SimpleAlways(steps);
    AfterTake(steps);
    SimpleAlways(steps + [Take]);
  }

  // ---------- events

  /** The events without a key. */
  function Unkeyed(s: seq<Item>): seq<Item> {
    if s == [] then []
    else
      var x := s[|s| - 1];
      Unkeyed(s[..|s| - 1]) + if x.priority.Event? && x.key.None? then [x] else []
  }

  lemma UnkeyedPush(s: seq<Item>, x: Item)
    ensures Unkeyed(s + [x]) == Unkeyed(s) + if x.priority.Event? && x.key.None? then [x] else []
  {
    assert (s + [x])[..|s|] == s;
  }

  lemma {:induction false} UnkeyedParts(a: seq<Item>, b: seq<Item>)
    ensures Unkeyed(a + b) == Unkeyed(a) + Unkeyed(b)
  {
    if b == [] {
      assert a + b == a;
    } else {
      var rest, x := b[..|b| - 1], b[|b| - 1];
      UnkeyedParts(a, rest);
      assert a + b == a + rest + [x];
      UnkeyedPush(a + rest, x);
    }
  }

  lemma UnkeyedFirst(s: seq<Item>)
    requires s != []
    ensures Unkeyed(s) == (if s[0].priority.Event? && s[0].key.None? then [s[0]] else []) + Unkeyed(s[1..])
  {
    UnkeyedParts([s[0]], s[1..]);
    UnkeyedPush([], s[0]);
    assert [s[0]] + s[1..] == s && [] + [s[0]] == [s[0]];
  }

  lemma {:induction false} UnkeyedStay(s: seq<Item>, key: string)
    ensures Unkeyed(WithKey(s, key, false)) == Unkeyed(s)
  {
    if s != [] {
      UnkeyedStay(s[1..], key);
      UnkeyedFirst(s);
      var rest := WithKey(s[1..], key, false);
      if s[0].key != Some(key) {
        assert WithKey(s, key, false) == [s[0]] + rest && ([s[0]] + rest)[1..] == rest;
        UnkeyedFirst([s[0]] + rest);
      } else {
        assert WithKey(s, key, false) == rest;
      }
    }
  }

  predicate UnkeyedInLine(q: Simple) {
    Unkeyed(q.executed) + Unkeyed(q.event) == Unkeyed(q.received)
  }

  lemma UnkeyedPut(q: Simple, item: Item)
    requires UnkeyedInLine(q)
    ensures UnkeyedInLine(SimplePut(q, item))
  {
    UnkeyedPush(q.received, item);
    if item.priority.Event? {
      if item.key.Some? {
        UnkeyedStay(q.event, item.key.value);
        UnkeyedPush(WithKey(q.event, item.key.value, false), item);
      } else {
        UnkeyedPush(q.event, item);
      }
    }
  }

  lemma UnkeyedMoved(done: seq<Item>, queue: seq<Item>)
    requires queue != []
    ensures Unkeyed(done + [queue[0]]) + Unkeyed(queue[1..]) == Unkeyed(done) + Unkeyed(queue)
  {
    var head := if queue[0].priority.Event? && queue[0].key.None? then [queue[0]] else [];
    UnkeyedPush(done, queue[0]);
    UnkeyedFirst(queue);
    Associative(Unkeyed(done), head, Unkeyed(queue[1..]));
  }

  lemma UnkeyedOther(done: seq<Item>, x: Item)
    requires !x.priority.Event?
    ensures Unkeyed(done + [x]) == Unkeyed(done)
  {
    UnkeyedPush(done, x);
  }

  lemma UnkeyedTake(q: Simple)
    requires UnkeyedInLine(q) && Sorted(q) && !SimpleEmpty(q)
    ensures UnkeyedInLine(SimpleTake(q))
  {
    if q.high != [] {
      UnkeyedOther(q.executed, q.high[0]);
    } else if q.norm != [] {
      UnkeyedOther(q.executed, q.norm[0]);
    } else {
      UnkeyedMoved(q.executed, q.event);
    }
  }

  /** In every run the events without a key run in the order they came, and none
      of them is lost. */
  lemma {:induction false} UnkeyedInOrder(steps: seq<Step>)
    requires CanRun(steps)
    ensures UnkeyedInLine(After(steps))
  {
    if steps != [] {
      var rest := steps[..|steps| - 1];
      UnkeyedInOrder(rest);
      SimpleAlways(rest);
      match steps[|steps| - 1] {
        case Put(item) => UnkeyedPut(After(rest), item);
        case Take => UnkeyedTake(After(rest));
      }
    }
  }

  // ---------- the earliest event runs

  /** Places in `received`, in order, at which these items stand. */
  predicate Places(places: seq<nat>, received: seq<Item>, items: seq<Item>) {
    && |places| == |items|
    && (forall i :: 0 <= i < |places| ==> places[i] < |received| && received[places[i]] == items[i])
    && (forall i, j :: 0 <= i < j < |places| ==> places[i] < places[j])
  }

  lemma PlacesFirst(p: nat, places: seq<nat>, received: seq<Item>, item: Item, items: seq<Item>)
    requires Places(places, received, items) && p < |received| && received[p] == item
    requires forall q :: q in places ==> p < q
    ensures Places([p] + places, received, [item] + items)
  {
    assert forall j :: 0 < j < |[p] + places| ==> ([p] + places)[j] == places[j - 1] && places[j - 1] in places;
  }

  lemma {:induction false} PlacesKept(places: seq<nat>, received: seq<Item>, items: seq<Item>, key: string)
    returns (kept: seq<nat>)
    requires Places(places, received, items)
    ensures Places(kept, received, WithKey(items, key, false))
    ensures places != [] ==> forall p :: p in kept ==> places[0] <= p
    decreases |items|
  {
    if items == [] {
      kept := [];
    } else {
      kept := PlacesKept(places[1..], received, items[1..], key);
      if items[0].key != Some(key) {
        assert |places| > 1 ==> places[0] < places[1..][0];
        PlacesFirst(places[0], kept, received, items[0], WithKey(items[1..], key, false));
        kept := [places[0]] + kept;
      }
    }
  }

  lemma PlacesLast(places: seq<nat>, received: seq<Item>, items: seq<Item>, item: Item)
    requires Places(places, received, items)
    ensures Places(places + [|received|], received + [item], items + [item])
  {}

  lemma PlacesStay(places: seq<nat>, received: seq<Item>, items: seq<Item>, item: Item)
    requires Places(places, received, items)
    ensures Places(places, received + [item], items)
  {}

  /** The queued events stand in the order they were received. */
  lemma PutPlaces(q: Simple, item: Item, places: seq<nat>) returns (places': seq<nat>)
    requires Places(places, q.received, q.event)
    ensures Places(places', SimplePut(q, item).received, SimplePut(q, item).event)
  {
    if !item.priority.Event? {
      places' := places;
      PlacesStay(places, q.received, q.event, item);
    } else if item.key.None? {
      PlacesLast(places, q.received, q.event, item);
      places' := places + [|q.received|];
    } else {
      var kept := PlacesKept(places, q.received, q.event, item.key.value);
      PlacesLast(kept, q.received, WithKey(q.event, item.key.value, false), item);
      places' := kept + [|q.received|];
    }
  }

  lemma {:induction false} QueuedInPlace(steps: seq<Step>) returns (places: seq<nat>)
    requires CanRun(steps)
    ensures Places(places, After(steps).received, After(steps).event)
  {
    if steps == [] {
      places := [];
    } else {
      var rest := steps[..|steps| - 1];
      var q := After(rest);
      places := QueuedInPlace(rest);
      match steps[|steps| - 1] {
        case Put(item) => places := PutPlaces(q, item, places);
        case Take => places := if q.event == SimpleTake(q).event then places else places[1..];
      }
    }
  }

  lemma PlacesRest(places: seq<nat>, received: seq<Item>, items: seq<Item>)
    requires Places(places, received, items) && items != []
    ensures Places(places[1..], received, items[1..]) && (|places| > 1 ==> places[0] < places[1..][0])
  {}

  lemma SplitAt(received: seq<Item>, p: nat, n: nat)
    requires p <= n < |received|
    ensures multiset(received[p..]) == multiset(received[p..n]) + multiset{received[n]} + multiset(received[n + 1..])
  {
    assert received[p..] == received[p..n] + [received[n]] + received[n + 1..];
  }

  lemma OneMore(x: Item, rest: multiset<Item>, before: multiset<Item>, later: multiset<Item>)
    requires rest <= later
    ensures multiset{x} + rest <= before + multiset{x} + later
  {}

  /** What stands at increasing places from `p` on is part of what was received from there on. */
  lemma {:induction false} PlacedLater(places: seq<nat>, received: seq<Item>, items: seq<Item>, p: nat)
    requires Places(places, received, items) && p <= |received| && (places != [] ==> p <= places[0])
    ensures multiset(items) <= multiset(received[p..])
    decreases |items|
  {
    if items != [] {
      var n := places[0];
      PlacesRest(places, received, items);
      PlacedLater(places[1..], received, items[1..], n + 1);
      SplitAt(received, p, n);
      OneMore(items[0], multiset(items[1..]), multiset(received[p..n]), multiset(received[n + 1..]));
      assert items == [items[0]] + items[1..];
    }
  }

  lemma {:induction false} OfPriorityMembers(s: seq<Item>, p: Priority)
    ensures forall x :: multiset(OfPriority(s, p))[x] == if x.priority == p then multiset(s)[x] else 0
  {
    if s != [] {
      OfPriorityMembers(s[..|s| - 1], p);
      assert s == s[..|s| - 1] + [s[|s| - 1]];
    }
  }

  lemma ReceivedCount(q: Simple, p: nat, x: Item)
    requires Conserved(q) && Sorted(q) && p <= |q.received| && x.priority.Event?
    ensures multiset(q.received[..p])[x] + multiset(q.received[p..])[x]
         == multiset(q.superseded)[x] + multiset(q.executed)[x] + multiset(q.event)[x]
  {
    assert q.received == q.received[..p] + q.received[p..];
    assert x !in q.high && x !in q.norm;
    assert Waiting(q)[x] == multiset(q.event)[x];
    assert multiset(q.received)[x] == multiset(q.superseded)[x] + (multiset(q.executed)[x] + Waiting(q)[x]);
  }

  /** Of two parts of what was received, the events of the first are done if the
      queued ones are among the second. */
  lemma FirstPartDone(q: Simple, p: nat)
    requires Conserved(q) && Sorted(q) && p <= |q.received| && multiset(q.event) <= multiset(q.received[p..])
    ensures multiset(OfPriority(q.received[..p], Event)) <= multiset(q.superseded) + multiset(q.executed)
  {
    OfPriorityMembers(q.received[..p], Event);
    forall x: Item
      ensures multiset(OfPriority(q.received[..p], Event))[x] <= multiset(q.superseded)[x] + multiset(q.executed)[x]
    {
      if x.priority.Event? {
        ReceivedCount(q, p, x);
        assert multiset(q.event)[x] <= multiset(q.received[p..])[x];
      }
    }
  }

  /** The event that runs is the earliest: every event received before it has been
      executed or superseded. */
  lemma {:induction false} EarliestEventRuns(steps: seq<Step>) returns (p: nat)
    requires CanRun(steps) && !SimpleEmpty(After(steps))
    ensures CanRun(steps + [Take]) && After(steps + [Take]).executed != []
    ensures var q := After(steps);
            Next(steps).priority.Event? ==>
              && p < |q.received| && q.received[p] == Next(steps)
              && multiset(OfPriority(q.received[..p], Event)) <= multiset(q.superseded) + multiset(q.executed)
  {
    var q := After(steps);
    TakeExecutes(steps);
    AfterTake(steps);
    SimpleAlways(steps);
    var places := QueuedInPlace(steps);
    p := 0;
    if Next(steps).priority.Event? {
      p := places[0];
      PlacedLater(places, q.received, q.event, p);
      FirstPartDone(q, p);
    }
  }

  // ---------- only an older event is superseded

  /** What was received before the last event of the key. */
  function BeforeLatest(received: seq<Item>, key: string): seq<Item> {
    if received == [] then []
    else
      var rest, last := received[..|received| - 1], received[|received| - 1];
      if last.priority.Event? && last.key == Some(key) then rest else BeforeLatest(rest, key)
  }

  lemma BeforePush(received: seq<Item>, x: Item, key: string)
    ensures BeforeLatest(received + [x], key)
         == if x.priority.Event? && x.key == Some(key) then received else BeforeLatest(received, key)
  {
    assert (received + [x])[..|received|] == received;
  }

  /** Whatever was superseded came before the last event of its key. */
  predicate OlderSuperseded(q: Simple) {
    forall x :: x in q.superseded ==>
      x.key.Some? && multiset(q.superseded)[x] <= multiset(BeforeLatest(q.received, x.key.value))[x]
  }

  lemma PutSupersedesOlder(q: Simple, item: Item)
    requires OlderSuperseded(q) && Conserved(q)
    ensures OlderSuperseded(SimplePut(q, item))
  {
    var q' := SimplePut(q, item);
    if item.priority.Event? && item.key.Some? {
      WithKeyParts(q.event, item.key.value);
      WithKeyMembers(q.event, item.key.value, true);
    }
    forall x | x in q'.superseded
      ensures x.key.Some? && multiset(q'.superseded)[x] <= multiset(BeforeLatest(q'.received, x.key.value))[x]
    {
      BeforePush(q.received, item, x.key.value);
    }
  }

  /** In every run an event is superseded only by a later event of its key. */
  lemma {:induction false} OnlyOlderSuperseded(steps: seq<Step>)
    requires CanRun(steps)
    ensures OlderSuperseded(After(steps))
  {
    if steps != [] {
      var rest := steps[..|steps| - 1];
      OnlyOlderSuperseded(rest);
      SimpleAlways(rest);
      if steps[|steps| - 1].Put? {
        PutSupersedesOlder(After(rest), steps[|steps| - 1].item);
      }
    }
  }

  // ---------- every take of a run

  lemma {:induction false} RunsSoFar(steps: seq<Step>, k: nat)
    requires CanRun(steps) && k <= |steps|
    ensures CanRun(steps[..k])
  {
    if k == |steps| {
      assert steps[..k] == steps;
    } else {
      assert steps[..|steps| - 1][..k] == steps[..k];
      RunsSoFar(steps[..|steps| - 1], k);
    }
  }

  /** So it is at every take of every run, the runs of the host's task among them. */
  lemma {:induction false} EveryTakeInOrder(steps: seq<Step>, k: nat) returns (p: nat)
    requires CanRun(steps) && k < |steps| && steps[k].Take?
    ensures CanRun(steps[..k]) && CanRun(steps[..k] + [Take]) && After(steps[..k] + [Take]).executed != []
    ensures var q, q', x := After(steps[..k]), After(steps[..k] + [Take]), Next(steps[..k]);
            && (!x.priority.High? ==> OfPriority(q'.executed, High) == OfPriority(q'.received, High))
            && (x.priority.Event? ==> OfPriority(q'.executed, Normal) == OfPriority(q'.received, Normal))
            && (x.priority.Event? ==>
                  && p < |q.received| && q.received[p] == x
                  && multiset(OfPriority(q.received[..p], Event)) <= multiset(q.superseded) + multiset(q.executed))
  {
    RunsSoFar(steps, k);
    RunsSoFar(steps, k + 1);
    assert steps[..k + 1][..k] == steps[..k];
    PriorityFirst(steps[..k]);
    p := EarliestEventRuns(steps[..k]);
  }

  // ---------- the channel is drained before a take

  /** A drain ends at a batch of items, at a channel found empty, or at a closed one. */
  lemma {:induction false} DrainStops(script: seq<Option<Item>>, pos: nat, batch: nat)
    requires pos <= |script|
    ensures var (end, closed) := DrainEnd(script, pos, batch);
            && (forall k :: pos <= k < end - 1 ==> script[k].Some?)
            && (closed <==> |script| - pos < batch && forall k :: pos <= k < |script| ==> script[k].Some?)
            && (!closed ==> (end == pos + batch && (end > pos ==> script[end - 1].Some?))
                            || (end > pos && script[end - 1].None?))
    decreases |script| - pos
  {
    if batch > 0 && pos < |script| && script[pos].Some? {
      DrainStops(script, pos + 1, batch - 1);
    }
  }

  /** An item is taken only after the channel was found empty or 64 items came. */
  lemma TakeAfterDrain(steps: seq<Step>, script: seq<Option<Item>>, pos: nat)
    requires CanRun(steps) && pos <= |script|
    ensures var (drained, end, closed) := Drained(steps, script, pos);
            && (closed <==> |script| - pos < 64 && forall k :: pos <= k < |script| ==> script[k].Some?)
            && (!closed && !SimpleEmpty(After(drained)) ==>
                  && Round(steps, script, pos) == (drained + [Take], end, false) && end > pos
                  && (script[end - 1].None? || (end == pos + 64 && forall k :: pos <= k < end ==> script[k].Some?)))
  {
    DrainStops(script, pos, DRAIN_BATCH_LIMIT);
  }

  lemma {:induction false} PutsExecuteNothing(steps: seq<Step>, items: seq<Item>, steps': seq<Step>)
    requires CanRun(steps) && steps' == steps + Puts(items)
    ensures CanRun(steps') && After(steps').executed == After(steps).executed
    decreases |items|
  {
    if items == [] {
      assert steps' == steps;
    } else {
      AfterPut(steps, items[0]);
      PutsApart(steps, [], items);
      PutsExecuteNothing(steps + [Put(items[0])], items[1..], steps');
    }
  }

  /** What is queued when the last sender is found gone never runs: a channel that is
      closed before it was ever found empty runs nothing of fewer than 64 items. */
  lemma {:induction false} ClosedRunsNothing(script: seq<Option<Item>>)
    requires |script| < 64 && forall k :: 0 <= k < |script| ==> script[k].Some?
    ensures After(Schedule([], script, 0)).executed == []
  {
    TakeAfterDrain([], script, 0);
    var (drained, end, _) := Drained([], script, 0);
    PutsExecuteNothing([], Arrived(script[..end]), drained);
    assert script[0..end] == script[..end];
  }
}
