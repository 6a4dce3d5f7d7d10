/** The invoke queue of one context: three priorities, and for keyed events
    last-wins coalescing by lazy generation numbers. */
module InvokeQueue {
  import opened Basics

  datatype Priority = High | Normal | Event

  /** A queued call; `gen` is its generation, 0 when it arrives. */
  datatype Item = Item(id: nat, priority: Priority, key: Option<string>, gen: nat)

  // ---------- the simple queue: enqueuing a keyed event replaces the queued one

  /** `received`, `executed` and `superseded` record what has happened. */
  datatype Simple = Simple(high: seq<Item>, norm: seq<Item>, event: seq<Item>,
                           received: seq<Item>, executed: seq<Item>, superseded: seq<Item>)

  const EMPTY_SIMPLE := Simple([], [], [], [], [], [])

  /** The items of `s` that do, or do not, carry the key. */
  function WithKey(s: seq<Item>, key: string, wanted: bool): seq<Item> {
    if s == [] then []
    else (if (s[0].key == Some(key)) == wanted then [s[0]] else []) + WithKey(s[1..], key, wanted)
  }

  function SimplePut(q: Simple, item: Item): Simple {
    var q := q.(received := q.received + [item]);
    match item.priority
    case High => q.(high := q.high + [item])
    case Normal => q.(norm := q.norm + [item])
    case Event =>
      if item.key.None? then q.(event := q.event + [item])
      else q.(event := WithKey(q.event, item.key.value, false) + [item],
              superseded := q.superseded + WithKey(q.event, item.key.value, true))
  }

  predicate SimpleEmpty(q: Simple) {
    q.high == [] && q.norm == [] && q.event == []
  }

  /** Executes the first item of the highest non-empty priority. */
  function SimpleTake(q: Simple): Simple
    requires !SimpleEmpty(q)
  {
    if q.high != [] then q.(high := q.high[1..], executed := q.executed + [q.high[0]])
    else if q.norm != [] then q.(norm := q.norm[1..], executed := q.executed + [q.norm[0]])
    else q.(event := q.event[1..], executed := q.executed + [q.event[0]])
  }

  // ---------- the lazy queue

  datatype Lazy = Lazy(high: seq<Item>, norm: seq<Item>, event: seq<Item>, gens: map<string, nat>, nextGen: nat)

  /** Superseded by a newer event of the same key. */
  predicate Stale(item: Item, gens: map<string, nat>) {
    item.key.Some? && item.key.value in gens && item.gen != gens[item.key.value]
  }

  /** The events that are not stale, as they arrived. */
  function Live(event: seq<Item>, gens: map<string, nat>): seq<Item> {
    if event == [] then []
    else (if Stale(event[0], gens) then [] else [event[0].(gen := 0)]) + Live(event[1..], gens)
  }

  predicate Keyed(item: Item) {
    item.key.Some?
  }

  ghost predicate Queued(event: seq<Item>, key: string, gen: nat) {
    exists i :: 0 <= i < |event| && event[i].key == Some(key) && event[i].gen == gen
  }

  /** Generations grow along the event queue up to the newest of their key, and
      a key has a newest generation exactly while that event is queued. */
  ghost predicate EventsOk(event: seq<Item>, gens: map<string, nat>, nextGen: nat) {
    && nextGen >= 1
    && (forall i :: 0 <= i < |event| && Keyed(event[i]) ==>
          event[i].key.value in gens && 1 <= event[i].gen <= gens[event[i].key.value])
    && (forall i :: 0 <= i < |event| && !Keyed(event[i]) ==> event[i].gen == 0)
    && (forall i, j :: 0 <= i < j < |event| && Keyed(event[i]) && Keyed(event[j]) ==> event[i].gen < event[j].gen)
    && (forall k :: k in gens ==> 1 <= gens[k] < nextGen)
    && (forall k :: k in gens ==> Queued(event, k, gens[k]))
  }

  ghost predicate LazyOk(q: Lazy) {
    && (forall i :: 0 <= i < |q.high| ==> q.high[i].gen == 0)
    && (forall i :: 0 <= i < |q.norm| ==> q.norm[i].gen == 0)
    && EventsOk(q.event, q.gens, q.nextGen)
  }

  /** The lazy queue stands for the simple one whose events are the live ones. */
  ghost predicate Stands(q: Lazy, s: Simple) {
    s.high == q.high && s.norm == q.norm && s.event == Live(q.event, q.gens)
  }

  // ---------- filtering

  lemma {:induction false} LiveAppend(a: seq<Item>, b: seq<Item>, gens: map<string, nat>)
    ensures Live(a + b, gens) == Live(a, gens) + Live(b, gens)
  {
    if a == [] {
      assert a + b == b;
    } else {
      assert (a + b)[1..] == a[1..] + b;
      LiveAppend(a[1..], b, gens);
    }
  }

  /** A newer generation of a key turns exactly the queued events of the key stale. */
  lemma {:induction false} LiveSuperseded(event: seq<Item>, gens: map<string, nat>, key: string, gen: nat)
    requires forall i :: 0 <= i < |event| && event[i].key == Some(key) ==> event[i].gen != gen
    ensures Live(event, gens[key := gen]) == WithKey(Live(event, gens), key, false)
  {
    if event != [] {
      var rest := Live(event[1..], gens);
      LiveSuperseded(event[1..], gens, key, gen);
      if Stale(event[0], gens) {
        assert Live(event, gens) == rest;
        assert Live(event, gens[key := gen]) == WithKey(rest, key, false);
      } else {
        WithKeyFirst(event[0], rest, key);
        assert Live(event, gens) == [event[0].(gen := 0)] + rest;
      }
    }
  }

  lemma WithKeyFirst(item: Item, rest: seq<Item>, key: string)
    ensures WithKey([item.(gen := 0)] + rest, key, false)
         == (if item.key == Some(key) then [] else [item.(gen := 0)]) + WithKey(rest, key, false)
  {
    assert ([item.(gen := 0)] + rest)[1..] == rest;
  }

  /** Forgetting a key nobody in the queue carries changes nothing. */
  lemma {:induction false} LiveForget(event: seq<Item>, gens: map<string, nat>, key: string)
    requires forall i :: 0 <= i < |event| ==> event[i].key != Some(key)
    ensures Live(event, gens - {key}) == Live(event, gens)
  {
    if event != [] {
      LiveForget(event[1..], gens, key);
    }
  }

  // ---------- enqueuing

  function LazyPut(q: Lazy, item: Item): Lazy {
    match item.priority
    case High => q.(high := q.high + [item])
    case Normal => q.(norm := q.norm + [item])
    case Event =>
      if item.key.None? then q.(event := q.event + [item])
      else q.(event := q.event + [item.(gen := q.nextGen)], gens := q.gens[item.key.value := q.nextGen],
              nextGen := q.nextGen + 1)
  }

  lemma QueuedAppend(event: seq<Item>, last: Item, key: string, gen: nat)
    requires Queued(event, key, gen) || (last.key == Some(key) && last.gen == gen)
    ensures Queued(event + [last], key, gen)
  {
    if last.key == Some(key) && last.gen == gen {
      assert (event + [last])[|event|] == last;
    } else {
      var i :| 0 <= i < |event| && event[i].key == Some(key) && event[i].gen == gen;
      assert (event + [last])[i] == event[i];
    }
  }

  lemma PutKeyedEvents(event: seq<Item>, gens: map<string, nat>, nextGen: nat, item: Item)
    requires EventsOk(event, gens, nextGen) && item.key.Some?
    ensures EventsOk(event + [item.(gen := nextGen)], gens[item.key.value := nextGen], nextGen + 1)
  {
    var last, gens' := item.(gen := nextGen), gens[item.key.value := nextGen];
    var event' := event + [last];
    forall k | k in gens'
      ensures Queued(event', k, gens'[k])
    {
      QueuedAppend(event, last, k, gens'[k]);
    }
    assert forall i :: 0 <= i < |event| ==> event'[i] == event[i];
  }

  lemma PutPlainEvents(event: seq<Item>, gens: map<string, nat>, nextGen: nat, item: Item)
    requires EventsOk(event, gens, nextGen) && item.key.None? && item.gen == 0
    ensures EventsOk(event + [item], gens, nextGen)
  {
    forall k | k in gens
      ensures Queued(event + [item], k, gens[k])
    {
      QueuedAppend(event, item, k, gens[k]);
    }
  }

  /** A keyed event appended under a new generation replaces the live one of its key. */
  lemma PutEvent(event: seq<Item>, gens: map<string, nat>, nextGen: nat, item: Item)
    requires EventsOk(event, gens, nextGen) && item.key.Some? && item.gen == 0
    ensures Live(event + [item.(gen := nextGen)], gens[item.key.value := nextGen])
         == WithKey(Live(event, gens), item.key.value, false) + [item]
  {
    var key := item.key.value;
    LiveSuperseded(event, gens, key, nextGen);
    LiveAppend(event, [item.(gen := nextGen)], gens[key := nextGen]);
  }

  lemma PutEventRefines(q: Lazy, s: Simple, item: Item)
    requires LazyOk(q) && Stands(q, s) && item.gen == 0 && item.priority.Event?
    ensures LazyOk(LazyPut(q, item)) && Stands(LazyPut(q, item), SimplePut(s, item))
  {
    if item.key.None? {
      PutPlainEvents(q.event, q.gens, q.nextGen, item);
      LiveAppend(q.event, [item], q.gens);
    } else {
      PutKeyedEvents(q.event, q.gens, q.nextGen, item);
      PutEvent(q.event, q.gens, q.nextGen, item);
    }
  }

  /** Enqueuing lazily is enqueuing with replacement. */
  lemma PutRefines(q: Lazy, s: Simple, item: Item)
    requires LazyOk(q) && Stands(q, s) && item.gen == 0
    ensures LazyOk(LazyPut(q, item)) && Stands(LazyPut(q, item), SimplePut(s, item))
  {
    if item.priority.Event? {
      PutEventRefines(q, s, item);
    }
  }

  // ---------- dequeuing

  /** Drops stale events from the front. */
  function SkipStale(event: seq<Item>, gens: map<string, nat>): seq<Item> {
    if event != [] && Stale(event[0], gens) then SkipStale(event[1..], gens) else event
  }

  /** A queue without events but with a high or normal item, or one whose first
      event is live, can hand out an item. */
  function LazyPop(q: Lazy): (Option<Item>, Lazy) {
    if q.high != [] then (Some(q.high[0]), q.(high := q.high[1..]))
    else if q.norm != [] then (Some(q.norm[0]), q.(norm := q.norm[1..]))
    else
      var event := SkipStale(q.event, q.gens);
      if event == [] then (None, q.(event := [])) else (Some(event[0]), q.(event := event[1..]))
  }

  /** Forgets the key of the item about to run if the item is the newest of it. */
  function Forget(gens: map<string, nat>, item: Item): map<string, nat> {
    if item.key.Some? && item.key.value in gens && gens[item.key.value] == item.gen
    then gens - {item.key.value} else gens
  }

  lemma QueuedTail(event: seq<Item>, key: string, gen: nat)
    requires Queued(event, key, gen) && !(event[0].key == Some(key) && event[0].gen == gen)
    ensures Queued(event[1..], key, gen)
  {
    var i :| 0 <= i < |event| && event[i].key == Some(key) && event[i].gen == gen;
    assert event[1..][i - 1] == event[i];
  }

  lemma TailEvents(event: seq<Item>, gens: map<string, nat>, nextGen: nat)
    requires EventsOk(event, gens, nextGen) && event != [] && (Stale(event[0], gens) || !Keyed(event[0]))
    ensures EventsOk(event[1..], gens, nextGen)
  {
    forall k | k in gens
      ensures Queued(event[1..], k, gens[k])
    {
      QueuedTail(event, k, gens[k]);
    }
  }

  lemma {:induction false} SkipRefines(event: seq<Item>, gens: map<string, nat>, nextGen: nat)
    requires EventsOk(event, gens, nextGen)
    ensures EventsOk(SkipStale(event, gens), gens, nextGen)
    ensures Live(SkipStale(event, gens), gens) == Live(event, gens)
    ensures SkipStale(event, gens) != [] ==> !Stale(SkipStale(event, gens)[0], gens)
  {
    if event != [] && Stale(event[0], gens) {
      TailEvents(event, gens, nextGen);
      SkipRefines(event[1..], gens, nextGen);
    }
  }

  /** No other event of the key is queued behind the newest one. */
  lemma NewestAlone(event: seq<Item>, gens: map<string, nat>, nextGen: nat)
    requires EventsOk(event, gens, nextGen) && event != [] && Keyed(event[0]) && !Stale(event[0], gens)
    ensures forall i :: 0 <= i < |event[1..]| ==> event[1..][i].key != event[0].key
    ensures Forget(gens, event[0]) == gens - {event[0].key.value}
  {
    forall i | 0 <= i < |event[1..]|
      ensures event[1..][i].key != event[0].key
    {
      assert event[1..][i] == event[i + 1];
    }
  }

  lemma ForgetNewest(event: seq<Item>, gens: map<string, nat>, nextGen: nat)
    requires EventsOk(event, gens, nextGen) && event != [] && Keyed(event[0])
    requires forall i :: 0 <= i < |event[1..]| ==> event[1..][i].key != event[0].key
    ensures EventsOk(event[1..], gens - {event[0].key.value}, nextGen)
  {
    forall k | k in gens - {event[0].key.value}
      ensures Queued(event[1..], k, gens[k])
    {
      QueuedTail(event, k, gens[k]);
    }
  }

  /** Running the newest event of a key: its generation can be forgotten. */
  lemma RunNewest(event: seq<Item>, gens: map<string, nat>, nextGen: nat)
    requires EventsOk(event, gens, nextGen) && event != [] && Keyed(event[0]) && !Stale(event[0], gens)
    ensures EventsOk(event[1..], Forget(gens, event[0]), nextGen)
    ensures Live(event[1..], Forget(gens, event[0])) == Live(event[1..], gens)
  {
    NewestAlone(event, gens, nextGen);
    ForgetNewest(event, gens, nextGen);
    LiveForget(event[1..], gens, event[0].key.value);
  }

  /** Popping a live event pops the first event of the simple queue. */
  lemma TakeEvent(event: seq<Item>, gens: map<string, nat>, nextGen: nat)
    requires EventsOk(event, gens, nextGen) && event != [] && !Stale(event[0], gens)
    ensures Live(event, gens) == [event[0].(gen := 0)] + Live(event[1..], Forget(gens, event[0]))
    ensures EventsOk(event[1..], Forget(gens, event[0]), nextGen)
  {
    if Keyed(event[0]) {
      RunNewest(event, gens, nextGen);
    } else {
      TailEvents(event, gens, nextGen);
    }
  }

  function LazyTake(q: Lazy): Lazy
    requires LazyPop(q).0.Some?
  {
    LazyPop(q).1.(gens := Forget(q.gens, LazyPop(q).0.value))
  }

  /** A high or normal item never clears a generation, whatever key it carries. */
  lemma PriorityKeepsKeys(q: Lazy)
    requires LazyOk(q) && (q.high != [] || q.norm != [])
    ensures LazyTake(q).gens == q.gens && LazyTake(q).event == q.event
  {}

  /** Taking lazily is taking from the simple queue, and finds nothing exactly
      when the simple queue is empty. */
  lemma TakeRefines(q: Lazy, s: Simple)
    requires LazyOk(q) && Stands(q, s)
    ensures LazyPop(q).0.None? <==> SimpleEmpty(s)
    ensures LazyPop(q).0.None? ==> LazyOk(LazyPop(q).1) && Stands(LazyPop(q).1, s)
    ensures LazyPop(q).0.Some? ==> LazyOk(LazyTake(q)) && Stands(LazyTake(q), SimpleTake(s))
    ensures LazyPop(q).0.Some? ==> SimpleTake(s).executed == s.executed + [LazyPop(q).0.value.(gen := 0)]
  {
    if q.high == [] && q.norm == [] {
      SkipRefines(q.event, q.gens, q.nextGen);
      var event := SkipStale(q.event, q.gens);
      if event != [] {
        TakeEvent(event, q.gens, q.nextGen);
      }
    } else {
      PriorityKeepsKeys(q);
    }
  }

  // ---------- runs of the simple queue

  datatype Step = Put(item: Item) | Take

  predicate CanRun(steps: seq<Step>)
    decreases |steps|, 0
  {
    steps != [] ==>
      && CanRun(steps[..|steps| - 1])
      && (steps[|steps| - 1].Take? ==> !SimpleEmpty(After(steps[..|steps| - 1])))
  }

  function After(steps: seq<Step>): Simple
    requires CanRun(steps)
    decreases |steps|, 1
  {
    if steps == [] then EMPTY_SIMPLE
    else
      var q := After(steps[..|steps| - 1]);
      match steps[|steps| - 1]
      case Put(item) => SimplePut(q, item)
      case Take => SimpleTake(q)
  }

  /** Puts since the last take. */
  function Burst(steps: seq<Step>): nat {
    if steps == [] || steps[|steps| - 1].Take? then 0 else 1 + Burst(steps[..|steps| - 1])
  }

  function OfPriority(s: seq<Item>, p: Priority): seq<Item> {
    if s == [] then []
    else OfPriority(s[..|s| - 1], p) + if s[|s| - 1].priority == p then [s[|s| - 1]] else []
  }

  /** The last event received under the key. */
  function Latest(received: seq<Item>, key: string): Option<Item> {
    if received == [] then None
    else
      var last := received[|received| - 1];
      if last.priority.Event? && last.key == Some(key) then Some(last) else Latest(received[..|received| - 1], key)
  }

  // ---------- what every run of the simple queue keeps

  predicate Conserved(q: Simple) {
    multiset(q.received) == multiset(q.superseded) + (multiset(q.executed) + Waiting(q))
  }

  function Waiting(q: Simple): multiset<Item> {
    multiset(q.high) + multiset(q.norm) + multiset(q.event)
  }

  predicate Sorted(q: Simple) {
    && (forall x :: x in q.high ==> x.priority == High)
    && (forall x :: x in q.norm ==> x.priority == Normal)
    && (forall x :: x in q.event ==> x.priority == Event)
    && (forall x :: x in q.superseded ==> x.priority == Event && Keyed(x))
  }

  /** High and normal items run in the order they came, and none is lost. */
  predicate InOrder(q: Simple) {
    && OfPriority(q.executed, High) + q.high == OfPriority(q.received, High)
    && OfPriority(q.executed, Normal) + q.norm == OfPriority(q.received, Normal)
  }

  predicate Newest(q: Simple) {
    forall x :: x in q.event && Keyed(x) ==> Latest(q.received, x.key.value) == Some(x)
  }

  lemma {:induction false} WithKeyParts(s: seq<Item>, key: string)
    ensures multiset(s) == multiset(WithKey(s, key, true)) + multiset(WithKey(s, key, false))
  {
    if s != [] {
      WithKeyParts(s[1..], key);
      assert s == [s[0]] + s[1..];
      if s[0].key == Some(key) {
        assert WithKey(s, key, true) == [s[0]] + WithKey(s[1..], key, true);
        assert WithKey(s, key, false) == WithKey(s[1..], key, false);
      } else {
        assert WithKey(s, key, true) == WithKey(s[1..], key, true);
        assert WithKey(s, key, false) == [s[0]] + WithKey(s[1..], key, false);
      }
    }
  }

  lemma {:induction false} WithKeyMembers(s: seq<Item>, key: string, wanted: bool)
    ensures forall x :: x in WithKey(s, key, wanted) <==> x in s && (x.key == Some(key)) == wanted
  {
    if s != [] {
      WithKeyMembers(s[1..], key, wanted);
      assert s == [s[0]] + s[1..];
    }
  }

  lemma PriorityPush(s: seq<Item>, x: Item, p: Priority)
    ensures OfPriority(s + [x], p) == OfPriority(s, p) + if x.priority == p then [x] else []
  {
    assert (s + [x])[..|s|] == s;
  }

  lemma LatestPush(s: seq<Item>, x: Item, key: string)
    ensures Latest(s + [x], key) == if x.priority.Event? && x.key == Some(key) then Some(x) else Latest(s, key)
  {
    assert (s + [x])[..|s|] == s;
  }

  lemma PutConserves(q: Simple, item: Item)
    requires Conserved(q)
    ensures Conserved(SimplePut(q, item))
  {
    if item.priority.Event? && item.key.Some? {
      WithKeyParts(q.event, item.key.value);
    }
  }

  lemma Moved(done: seq<Item>, queue: seq<Item>)
    requires queue != []
    ensures multiset(done + [queue[0]]) + multiset(queue[1..]) == multiset(done) + multiset(queue)
  {
    assert queue == [queue[0]] + queue[1..];
  }

  /** What leaves `b` for `a` leaves the sum with `c` as it was. */
  lemma Regroup(a: multiset<Item>, b: multiset<Item>, a': multiset<Item>, b': multiset<Item>, c: multiset<Item>)
    requires a' + b' == a + b
    ensures a' + (b' + c) == a + (b + c)
  {
    assert a' + (b' + c) == (a' + b') + c;
    assert a + (b + c) == (a + b) + c;
  }

  lemma TakeConserves(q: Simple)
    requires Conserved(q) && !SimpleEmpty(q)
    ensures Conserved(SimpleTake(q))
  {
    var q', done := SimpleTake(q), multiset(q.executed);
    var high, norm, event := multiset(q.high), multiset(q.norm), multiset(q.event);
    if q.high != [] {
      Moved(q.executed, q.high);
      Regroup(done, high, multiset(q'.executed), multiset(q'.high), norm + event);
      assert Waiting(q) == high + (norm + event) && Waiting(q') == multiset(q'.high) + (norm + event);
    } else if q.norm != [] {
      Moved(q.executed, q.norm);
      Regroup(done, norm, multiset(q'.executed), multiset(q'.norm), event);
      assert Waiting(q) == norm + event && Waiting(q') == multiset(q'.norm) + event;
    } else {
      Moved(q.executed, q.event);
      assert Waiting(q) == event && Waiting(q') == multiset(q'.event);
    }
  }

  lemma PutSorted(q: Simple, item: Item)
    requires Sorted(q) && Newest(q)
    ensures Sorted(SimplePut(q, item)) && Newest(SimplePut(q, item))
  {
    if item.priority.Event? && item.key.Some? {
      WithKeyMembers(q.event, item.key.value, true);
      WithKeyMembers(q.event, item.key.value, false);
    }
    forall x | x in SimplePut(q, item).event && Keyed(x)
      ensures Latest(q.received + [item], x.key.value) == Some(x)
    {
      LatestPush(q.received, item, x.key.value);
    }
  }

  lemma PutInOrder(q: Simple, item: Item)
    requires InOrder(q)
    ensures InOrder(SimplePut(q, item))
  {
    PriorityPush(q.received, item, High);
    PriorityPush(q.received, item, Normal);
  }

  lemma MovedInOrder(done: seq<Item>, queue: seq<Item>, p: Priority)
    requires queue != [] && queue[0].priority == p
    ensures OfPriority(done + [queue[0]], p) + queue[1..] == OfPriority(done, p) + queue
  {
    PriorityPush(done, queue[0], p);
  }

  lemma TakeInOrder(q: Simple)
    requires Sorted(q) && InOrder(q) && !SimpleEmpty(q)
    ensures InOrder(SimpleTake(q))
  {
    if q.high != [] {
      MovedInOrder(q.executed, q.high, High);
      PriorityPush(q.executed, q.high[0], Normal);
    } else if q.norm != [] {
      MovedInOrder(q.executed, q.norm, Normal);
      PriorityPush(q.executed, q.norm[0], High);
    } else {
      PriorityPush(q.executed, q.event[0], High);
      PriorityPush(q.executed, q.event[0], Normal);
    }
  }

  /** In every run: received = executed + superseded + queued, only keyed events
      are ever superseded, high and normal items keep their order, and every
      queued keyed event is the newest of its key. */
  lemma {:induction false} SimpleAlways(steps: seq<Step>)
    requires CanRun(steps)
    ensures Conserved(After(steps)) && Sorted(After(steps)) && InOrder(After(steps)) && Newest(After(steps))
  {
    if steps != [] {
      var q := After(steps[..|steps| - 1]);
      SimpleAlways(steps[..|steps| - 1]);
      match steps[|steps| - 1] {
        case Put(item) =>
          PutConserves(q, item);
          PutSorted(q, item);
          PutInOrder(q, item);
        case Take =>
          TakeConserves(q);
          TakeInOrder(q);
      }
    }
  }

  /** A keyed event runs only while it is the last event received under its key. */
  lemma {:induction false} NewestRuns(steps: seq<Step>)
    requires CanRun(steps) && !SimpleEmpty(After(steps))
    ensures var x := SimpleTake(After(steps)).executed[|After(steps).executed|];
            x.priority.Event? && Keyed(x) ==> Latest(After(steps).received, x.key.value) == Some(x)
  {
    SimpleAlways(steps);
  }

  // ---------- the queue of the host

  const DRAIN_BATCH_LIMIT: nat := 64

  class Queue {
    var high: seq<Item>
    var norm: seq<Item>
    var event: seq<Item>
    var gens: map<string, nat>
    var nextGen: nat

    ghost function View(): Lazy
      reads this
    {
      Lazy(high, norm, event, gens, nextGen)
    }

    constructor ()
      ensures LazyOk(View()) && Stands(View(), EMPTY_SIMPLE)
    {
      high, norm, event, gens, nextGen := [], [], [], map[], 1;
    }

    /** Routes an item into its queue; a keyed event becomes the newest of its key. */
    method EnqueueItem(item: Item)
      modifies this
      ensures View() == LazyPut(old(View()), item)
    {
      match item.priority {
        case High => high := high + [item];
        case Normal => norm := norm + [item];
        case Event =>
          var item := item;
          if item.key.Some? {
            var gen := nextGen;
            nextGen := nextGen + 1;
            gens := gens[item.key.value := gen];
            item := item.(gen := gen);
          }
          event := event + [item];
      }
    }

    /** Pops the first item of the highest priority, dropping stale events. */
    method DequeueItem() returns (item: Option<Item>)
      modifies this
      ensures (item, View()) == LazyPop(old(View()))
      ensures old(high) != [] ==> item == Some(old(high)[0]) && high == old(high)[1..]
      ensures old(high) == [] && old(norm) != [] ==> item == Some(old(norm)[0]) && norm == old(norm)[1..]
    {
      if high != [] {
        item, high := Some(high[0]), high[1..];
        return;
      }
      if norm != [] {
        item, norm := Some(norm[0]), norm[1..];
        return;
      }
      while event != []
        invariant high == [] && norm == [] && gens == old(gens) && nextGen == old(nextGen)
        invariant SkipStale(event, gens) == SkipStale(old(event), gens)
        decreases |event|
      {
        var ev := event[0];
        event := event[1..];
        if ev.key.Some? && ev.key.value in gens && ev.gen != gens[ev.key.value] {
          continue;
        }
        return Some(ev);
      }
      return None;
    }

    /** One round of the processing phase. */
    method Process() returns (item: Option<Item>)
      modifies this
      ensures item == LazyPop(old(View())).0
      ensures View() == if item.None? then LazyPop(old(View())).1 else LazyTake(old(View()))
    {
      item := DequeueItem();
      if item.Some? && item.value.key.Some? {
        var key := item.value.key.value;
        if key in gens && gens[key] == item.value.gen {
          gens := gens - {key};
        }
      }
    }
  }

  /** Items the receiver hands out; None is a moment when the channel is empty,
      and past the end every sender is gone. */
  function Arrived(script: seq<Option<Item>>): seq<Item> {
    if script == [] then []
    else Arrived(script[..|script| - 1]) + if script[|script| - 1].Some? then [script[|script| - 1].value] else []
  }

  /** No more than a batch, and the item that ended a wait, between two takes. */
  ghost predicate Fair(steps: seq<Step>) {
    forall k :: 0 <= k <= |steps| ==> Burst(steps[..k]) <= DRAIN_BATCH_LIMIT + 1
  }

  ghost predicate Follows(q: Lazy, steps: seq<Step>, executed: seq<Item>, received: seq<Item>) {
    && CanRun(steps) && LazyOk(q) && Stands(q, After(steps))
    && After(steps).executed == executed && After(steps).received == received && Fair(steps)
  }

  lemma FairPush(steps: seq<Step>, step: Step)
    requires Fair(steps) && (step.Put? ==> Burst(steps) <= DRAIN_BATCH_LIMIT)
    ensures Fair(steps + [step]) && Burst(steps + [step]) == if step.Take? then 0 else Burst(steps) + 1
  {
    var steps' := steps + [step];
    assert steps'[..|steps|] == steps && steps'[..|steps'|] == steps';
    forall k | 0 <= k <= |steps'|
      ensures Burst(steps'[..k]) <= DRAIN_BATCH_LIMIT + 1
    {
      if k <= |steps| {
        assert steps'[..k] == steps[..k];
      }
    }
  }

  lemma AfterPut(steps: seq<Step>, item: Item)
    requires CanRun(steps)
    ensures CanRun(steps + [Put(item)]) && After(steps + [Put(item)]) == SimplePut(After(steps), item)
  {
    assert (steps + [Put(item)])[..|steps|] == steps;
  }

  lemma AfterTake(steps: seq<Step>)
    requires CanRun(steps) && !SimpleEmpty(After(steps))
    ensures CanRun(steps + [Take]) && After(steps + [Take]) == SimpleTake(After(steps))
  {
    assert (steps + [Take])[..|steps|] == steps;
  }

  lemma FollowPut(q: Lazy, steps: seq<Step>, executed: seq<Item>, received: seq<Item>, item: Item)
    requires Follows(q, steps, executed, received) && item.gen == 0 && Burst(steps) <= DRAIN_BATCH_LIMIT
    ensures Follows(LazyPut(q, item), steps + [Put(item)], executed, received + [item])
    ensures Burst(steps + [Put(item)]) == Burst(steps) + 1
  {
    AfterPut(steps, item);
    FairPush(steps, Put(item));
    PutRefines(q, After(steps), item);
  }

  lemma FollowTake(q: Lazy, steps: seq<Step>, executed: seq<Item>, received: seq<Item>)
    requires Follows(q, steps, executed, received) && LazyPop(q).0.Some?
    ensures Follows(LazyTake(q), steps + [Take], executed + [LazyPop(q).0.value.(gen := 0)], received)
    ensures Burst(steps + [Take]) == 0
  {
    TakeRefines(q, After(steps));
    AfterTake(steps);
    FairPush(steps, Take);
  }

  function PutAll(q: Lazy, items: seq<Item>): Lazy
    decreases |items|
  {
    if items == [] then q else PutAll(LazyPut(q, items[0]), items[1..])
  }

  function Puts(items: seq<Item>): seq<Step> {
    if items == [] then [] else [Put(items[0])] + Puts(items[1..])
  }

  lemma {:induction false} PutAllPush(q: Lazy, items: seq<Item>, item: Item)
    ensures PutAll(q, items + [item]) == LazyPut(PutAll(q, items), item)
    decreases |items|
  {
    if items == [] {
      assert [] + [item] == [item] && [item][1..] == [];
    } else {
      assert (items + [item])[1..] == items[1..] + [item];
      PutAllPush(LazyPut(q, items[0]), items[1..], item);
    }
  }

  /** Puts in a row keep following: the steps and what was received grow by them. */
  lemma {:induction false} FollowPuts(q: Lazy, steps: seq<Step>, executed: seq<Item>, received: seq<Item>,
                                      items: seq<Item>, steps': seq<Step>, received': seq<Item>)
    requires Follows(q, steps, executed, received) && (forall x :: x in items ==> x.gen == 0)
    requires Burst(steps) + |items| <= DRAIN_BATCH_LIMIT + 1
    requires steps' == steps + Puts(items) && received' == received + items
    ensures Follows(PutAll(q, items), steps', executed, received') && Burst(steps') == Burst(steps) + |items|
    decreases |items|
  {
    if items == [] {
      assert steps' == steps && received' == received;
    } else {
      FollowPut(q, steps, executed, received, items[0]);
      PutsApart(steps, received, items);
      FollowPuts(LazyPut(q, items[0]), steps + [Put(items[0])], executed, received + [items[0]], items[1..],
                 steps', received');
    }
  }

  lemma {:induction false} PutsApart(steps: seq<Step>, received: seq<Item>, items: seq<Item>)
    requires items != []
    ensures steps + Puts(items) == steps + [Put(items[0])] + Puts(items[1..])
    ensures received + items == received + [items[0]] + items[1..]
  {
    Associative(steps, [Put(items[0])], Puts(items[1..]));
    assert items == [items[0]] + items[1..];
    Associative(received, [items[0]], items[1..]);
  }

  lemma ArrivedMore(script: seq<Option<Item>>, start: nat, pos: nat)
    requires start <= pos < |script|
    ensures Arrived(script[start..pos + 1])
         == Arrived(script[start..pos]) + if script[pos].Some? then [script[pos].value] else []
  {
    assert script[start..pos + 1][..pos - start] == script[start..pos];
  }

  lemma {:induction false} ArrivedParts(script: seq<Option<Item>>, start: nat, pos: nat)
    requires start <= pos <= |script|
    ensures Arrived(script[..pos]) == Arrived(script[..start]) + Arrived(script[start..pos])
    decreases pos
  {
    if start < pos {
      ArrivedParts(script, start, pos - 1);
      ArrivedMore(script, start, pos - 1);
      ArrivedMore(script, 0, pos - 1);
      assert script[0..pos] == script[..pos] && script[0..pos - 1] == script[..pos - 1];
    }
  }

  lemma ArrivedSplit(script: seq<Option<Item>>, pos: nat, mid: nat, end: nat)
    requires pos <= mid <= end <= |script|
    ensures Arrived(script[pos..end]) == Arrived(script[pos..mid]) + Arrived(script[mid..end])
  {
    var part := script[pos..end];
    ArrivedParts(part, mid - pos, |part|);
    assert part[..mid - pos] == script[pos..mid] && part[mid - pos..] == script[mid..end] && part[..|part|] == part;
  }

  lemma {:induction false} ArrivedFresh(script: seq<Option<Item>>)
    requires forall x :: x in script && x.Some? ==> x.value.gen == 0
    ensures forall x :: x in Arrived(script) ==> x.gen == 0
  {
    if script != [] {
      ArrivedFresh(script[..|script| - 1]);
    }
  }

  // ---------- the run of a script, exactly

  /** Where a draining phase that takes at most `batch` items ends, and whether it
      found the channel closed. */
  function DrainEnd(script: seq<Option<Item>>, pos: nat, batch: nat): (r: (nat, bool))
    requires pos <= |script|
    ensures pos <= r.0 <= |script| && r.0 <= pos + batch
    ensures if r.1 then r.0 == |script| else batch > 0 ==> pos < r.0
    decreases |script| - pos
  {
    if batch == 0 then (pos, false)
    else if pos == |script| then (pos, true)
    else if script[pos].None? then (pos + 1, false)
    else DrainEnd(script, pos + 1, batch - 1)
  }

  /** Where a wait ends, and whether it found the channel closed. */
  function WaitEnd(script: seq<Option<Item>>, pos: nat): (r: (nat, bool))
    requires pos <= |script|
    ensures pos <= r.0 <= |script|
    ensures if r.1 then r.0 == |script| else pos < r.0 && script[r.0 - 1].Some?
    decreases |script| - pos
  {
    if pos == |script| then (pos, true)
    else if script[pos].Some? then (pos + 1, false)
    else WaitEnd(script, pos + 1)
  }

  lemma {:induction false} PutsRun(steps: seq<Step>, items: seq<Item>)
    requires CanRun(steps)
    ensures CanRun(steps + Puts(items))
    decreases |items|
  {
    if items == [] {
      assert steps + Puts(items) == steps;
    } else {
      AfterPut(steps, items[0]);
      PutsApart(steps, [], items);
      PutsRun(steps + [Put(items[0])], items[1..]);
    }
  }

  /** A drain: the steps after it, where it ends and whether the channel is closed. */
  function Drained(steps: seq<Step>, script: seq<Option<Item>>, pos: nat): (r: (seq<Step>, nat, bool))
    requires CanRun(steps) && pos <= |script|
    ensures CanRun(r.0) && pos <= r.1 <= |script| && (if r.2 then r.1 == |script| else pos < r.1)
  {
    var (next, closed) := DrainEnd(script, pos, DRAIN_BATCH_LIMIT);
    PutsRun(steps, Arrived(script[pos..next]));
    (steps + Puts(Arrived(script[pos..next])), next, closed)
  }

  /** A wait, likewise. */
  function Waited(steps: seq<Step>, script: seq<Option<Item>>, pos: nat): (r: (seq<Step>, nat, bool))
    requires CanRun(steps) && pos <= |script|
    ensures CanRun(r.0) && pos <= r.1 <= |script| && (if r.2 then r.1 == |script| else pos < r.1)
  {
    var (woken, closed) := WaitEnd(script, pos);
    PutsRun(steps, Arrived(script[pos..woken]));
    (steps + Puts(Arrived(script[pos..woken])), woken, closed)
  }

  /** One round: a drain, and then one take if anything is queued, and only
      otherwise a wait. */
  function Round(steps: seq<Step>, script: seq<Option<Item>>, pos: nat): (r: (seq<Step>, nat, bool))
    requires CanRun(steps) && pos <= |script|
    ensures CanRun(r.0) && pos <= r.1 <= |script| && (if r.2 then r.1 == |script| else pos < r.1)
  {
    var (drained, next, closed) := Drained(steps, script, pos);
    if closed then (drained, next, true)
    else if !SimpleEmpty(After(drained)) then
      AfterTake(drained);
      (drained + [Take], next, false)
    else Waited(drained, script, next)
  }

  /** The puts and takes of the whole run: rounds until the channel is closed. */
  function Schedule(steps: seq<Step>, script: seq<Option<Item>>, pos: nat): (r: seq<Step>)
    requires CanRun(steps) && pos <= |script|
    ensures CanRun(r)
    decreases |script| - pos
  {
    var (next, end, closed) := Round(steps, script, pos);
    if closed then next else Schedule(next, script, end)
  }

  // ---------- a channel that stays empty lets everything run

  function Backlog(q: Simple): nat {
    |q.high| + |q.norm| + |q.event|
  }

  lemma {:induction false} WithKeyShorter(s: seq<Item>, key: string, wanted: bool)
    ensures |WithKey(s, key, wanted)| <= |s|
  {
    if s != [] {
      WithKeyShorter(s[1..], key, wanted);
    }
  }

  lemma BacklogPut(q: Simple, item: Item)
    ensures Backlog(SimplePut(q, item)) <= Backlog(q) + 1
  {
    if item.priority.Event? && item.key.Some? {
      WithKeyShorter(q.event, item.key.value, false);
    }
  }

  lemma {:induction false} BacklogPuts(steps: seq<Step>, items: seq<Item>)
    requires CanRun(steps) && CanRun(steps + Puts(items))
    ensures Backlog(After(steps + Puts(items))) <= Backlog(After(steps)) + |items|
    decreases |items|
  {
    if items == [] {
      assert steps + Puts(items) == steps;
    } else {
      AfterPut(steps, items[0]);
      BacklogPut(After(steps), items[0]);
      PutsApart(steps, [], items);
      BacklogPuts(steps + [Put(items[0])], items[1..]);
    }
  }

  /** What is still to arrive. */
  function Rest(script: seq<Option<Item>>, pos: nat): seq<Item>
    requires pos <= |script|
  {
    Arrived(script[pos..])
  }

  lemma RestParts(script: seq<Option<Item>>, pos: nat, next: nat)
    requires pos <= next <= |script|
    ensures Rest(script, pos) == Arrived(script[pos..next]) + Rest(script, next)
  {
    ArrivedSplit(script, pos, next, |script|);
    assert script[pos..|script|] == script[pos..] && script[next..|script|] == script[next..];
  }

  /** The last `m` moments of the script find the channel empty. */
  predicate EndsEmpty(script: seq<Option<Item>>, m: nat) {
    m <= |script| && forall i :: |script| - m <= i < |script| ==> script[i].None?
  }

  /** Enough of them are left for what is queued and still to arrive. */
  predicate Enough(backlog: nat, script: seq<Option<Item>>, m: nat, pos: nat)
    requires pos <= |script|
  {
    backlog + |Rest(script, pos)| <= Min(m, |script| - pos)
  }

  lemma {:induction false} DrainedSome(script: seq<Option<Item>>, pos: nat, batch: nat)
    requires pos <= |script|
    ensures var (next, closed) := DrainEnd(script, pos, batch);
            forall i :: pos <= i < (if closed then next else next - 1) ==> script[i].Some?
    decreases |script| - pos
  {
    if batch > 0 && pos < |script| && script[pos].Some? {
      DrainedSome(script, pos + 1, batch - 1);
    }
  }

  /** A drain takes no more than one empty moment, and is not the last while some are left. */
  lemma DrainWithin(script: seq<Option<Item>>, m: nat, pos: nat, next: nat, closed: bool)
    requires pos <= |script| && EndsEmpty(script, m) && (next, closed) == DrainEnd(script, pos, DRAIN_BATCH_LIMIT)
    ensures if closed then pos == |script| || m == 0 else next - 1 <= Max(pos, |script| - m)
  {
    DrainedSome(script, pos, DRAIN_BATCH_LIMIT);
    var first := Max(pos, |script| - m);
    assert first < |script| ==> script[first].None?;
  }

  /** After a drain, what is queued and still to arrive is no more than before. */
  lemma DrainedBacklog(steps: seq<Step>, script: seq<Option<Item>>, m: nat, pos: nat)
    requires CanRun(steps) && pos <= |script| && EndsEmpty(script, m)
    ensures var (drained, next, closed) := Drained(steps, script, pos);
            && Backlog(After(drained)) + |Rest(script, next)| <= Backlog(After(steps)) + |Rest(script, pos)|
            && if closed then pos == |script| || m == 0 else next - 1 <= Max(pos, |script| - m)
  {
    var (next, closed) := DrainEnd(script, pos, DRAIN_BATCH_LIMIT);
    DrainWithin(script, m, pos, next, closed);
    RestParts(script, pos, next);
    PutsRun(steps, Arrived(script[pos..next]));
    BacklogPuts(steps, Arrived(script[pos..next]));
  }

  /** A wait ends with the one item it receives, or with the channel closed. */
  lemma {:induction false} WaitedOne(script: seq<Option<Item>>, pos: nat)
    requires pos <= |script|
    ensures var (woken, closed) := WaitEnd(script, pos);
            Arrived(script[pos..woken]) == if closed then [] else [script[woken - 1].value]
    decreases |script| - pos
  {
    if pos < |script| {
      ArrivedMore(script, pos, pos);
      if script[pos].None? {
        WaitedOne(script, pos + 1);
        ArrivedSplit(script, pos, pos + 1, WaitEnd(script, pos).0);
      }
    }
  }

  lemma WaitedCount(script: seq<Option<Item>>, pos: nat)
    requires pos <= |script|
    ensures var (woken, closed) := WaitEnd(script, pos);
            && |Arrived(script[pos..woken])| == (if closed then 0 else 1)
            && |Rest(script, pos)| == |Arrived(script[pos..woken])| + |Rest(script, woken)|
  {
    WaitedOne(script, pos);
    RestParts(script, pos, WaitEnd(script, pos).0);
  }

  /** A wait that ends with an item uses none of them up. */
  lemma WaitedBacklog(steps: seq<Step>, script: seq<Option<Item>>, m: nat, pos: nat)
    requires CanRun(steps) && pos <= |script| && EndsEmpty(script, m)
    requires SimpleEmpty(After(steps)) && |Rest(script, pos)| <= m
    ensures var (waited, next, closed) := Waited(steps, script, pos);
            if closed then Backlog(After(waited)) == 0 else Enough(Backlog(After(waited)), script, m, next)
  {
    var items := Arrived(script[pos..WaitEnd(script, pos).0]);
    WaitedCount(script, pos);
    PutsRun(steps, items);
    BacklogPuts(steps, items);
  }

  lemma BacklogTaken(steps: seq<Step>)
    requires CanRun(steps) && !SimpleEmpty(After(steps))
    ensures CanRun(steps + [Take]) && Backlog(After(steps + [Take])) == Backlog(After(steps)) - 1
  {
    AfterTake(steps);
  }

  /** A round keeps enough of them, and the last one leaves nothing queued. */
  lemma EnoughRound(steps: seq<Step>, script: seq<Option<Item>>, m: nat, pos: nat)
    requires CanRun(steps) && pos <= |script| && EndsEmpty(script, m) && Enough(Backlog(After(steps)), script, m, pos)
    ensures var (next, end, closed) := Round(steps, script, pos);
            if closed then Backlog(After(next)) == 0 else Enough(Backlog(After(next)), script, m, end)
  {
    var (drained, next, closed) := Drained(steps, script, pos);
    DrainedBacklog(steps, script, m, pos);
    if !closed {
      if !SimpleEmpty(After(drained)) {
        BacklogTaken(drained);
      } else {
        WaitedBacklog(drained, script, m, next);
      }
    }
  }

  lemma {:induction false} EmptyInTheEnd(steps: seq<Step>, script: seq<Option<Item>>, m: nat, pos: nat)
    requires CanRun(steps) && pos <= |script| && EndsEmpty(script, m) && Enough(Backlog(After(steps)), script, m, pos)
    ensures Backlog(After(Schedule(steps, script, pos))) == 0
    decreases |script| - pos
  {
    var (next, end, closed) := Round(steps, script, pos);
    EnoughRound(steps, script, m, pos);
    if !closed {
      EmptyInTheEnd(next, script, m, end);
    }
  }

  lemma {:induction false} PutReceived(steps: seq<Step>, item: Item)
    requires CanRun(steps)
    ensures CanRun(steps + [Put(item)]) && After(steps + [Put(item)]).received == After(steps).received + [item]
  {
    AfterPut(steps, item);
  }

  lemma {:induction false} TakeReceived(steps: seq<Step>)
    requires CanRun(steps) && !SimpleEmpty(After(steps))
    ensures CanRun(steps + [Take]) && After(steps + [Take]).received == After(steps).received
  {
    AfterTake(steps);
  }

  lemma {:induction false} PutsReceived(steps: seq<Step>, items: seq<Item>, steps': seq<Step>, received: seq<Item>)
    requires CanRun(steps) && steps' == steps + Puts(items) && received == After(steps).received
    ensures CanRun(steps') && After(steps').received == received + items
    decreases |items|
  {
    if items == [] {
      assert steps' == steps && received + [] == received;
    } else {
      PutReceived(steps, items[0]);
      PutsApart(steps, received, items);
      PutsReceived(steps + [Put(items[0])], items[1..], steps', received + [items[0]]);
    }
  }

  /** Nothing that arrives is missed, and nothing else is received. */
  predicate Receives(steps: seq<Step>, steps': seq<Step>, script: seq<Option<Item>>, pos: nat, end: nat)
    requires CanRun(steps) && CanRun(steps') && pos <= end <= |script|
  {
    After(steps').received == After(steps).received + Arrived(script[pos..end])
  }

  lemma DrainedReceives(steps: seq<Step>, script: seq<Option<Item>>, pos: nat)
    requires CanRun(steps) && pos <= |script|
    ensures Receives(steps, Drained(steps, script, pos).0, script, pos, Drained(steps, script, pos).1)
  {
    var (drained, next, _) := Drained(steps, script, pos);
    PutsReceived(steps, Arrived(script[pos..next]), drained, After(steps).received);
  }

  lemma WaitedReceives(steps: seq<Step>, script: seq<Option<Item>>, pos: nat)
    requires CanRun(steps) && pos <= |script|
    ensures Receives(steps, Waited(steps, script, pos).0, script, pos, Waited(steps, script, pos).1)
  {
    var (woken, next, _) := Waited(steps, script, pos);
    PutsReceived(steps, Arrived(script[pos..next]), woken, After(steps).received);
  }

  lemma ReceivesBoth(steps: seq<Step>, steps1: seq<Step>, steps2: seq<Step>, script: seq<Option<Item>>, pos: nat,
                     mid: nat, end: nat)
    requires CanRun(steps) && CanRun(steps1) && CanRun(steps2) && pos <= mid <= end <= |script|
    requires Receives(steps, steps1, script, pos, mid) && Receives(steps1, steps2, script, mid, end)
    ensures Receives(steps, steps2, script, pos, end)
  {
    ArrivedSplit(script, pos, mid, end);
    Associative(After(steps).received, Arrived(script[pos..mid]), Arrived(script[mid..end]));
  }

  lemma RoundReceives(steps: seq<Step>, script: seq<Option<Item>>, pos: nat)
    requires CanRun(steps) && pos <= |script|
    ensures Receives(steps, Round(steps, script, pos).0, script, pos, Round(steps, script, pos).1)
  {
    var (drained, next, closed) := Drained(steps, script, pos);
    DrainedReceives(steps, script, pos);
    if !closed {
      if !SimpleEmpty(After(drained)) {
        TakeReceived(drained);
      } else {
        WaitedReceives(drained, script, next);
        var (woken, end, _) := Waited(drained, script, next);
        ReceivesBoth(steps, drained, woken, script, pos, next, end);
      }
    }
  }

  lemma {:induction false} ScheduleReceives(steps: seq<Step>, script: seq<Option<Item>>, pos: nat)
    requires CanRun(steps) && pos <= |script|
    ensures Receives(steps, Schedule(steps, script, pos), script, pos, |script|)
    decreases |script| - pos
  {
    var (next, end, closed) := Round(steps, script, pos);
    RoundReceives(steps, script, pos);
    if !closed {
      ScheduleReceives(next, script, end);
      ReceivesBoth(steps, next, Schedule(next, script, end), script, pos, end, |script|);
    }
  }

  /** Once the channel has been found empty as often as items arrived, each of them
      has been executed or superseded. */
  lemma {:induction false} AllRunInTheEnd(script: seq<Option<Item>>, m: nat)
    requires EndsEmpty(script, m) && m >= |Arrived(script)|
    ensures var q := After(Schedule([], script, 0));
            SimpleEmpty(q) && multiset(Arrived(script)) == multiset(q.superseded) + multiset(q.executed)
  {
    var q := After(Schedule([], script, 0));
    assert script[0..] == script && script[0..|script|] == script;
    EmptyInTheEnd([], script, m, 0);
    ScheduleReceives([], script, 0);
    assert q.received == Arrived(script);
    SimpleAlways(Schedule([], script, 0));
    assert Waiting(q) == multiset{};
  }

  /** The draining phase: puts what the channel hands out, at most a batch; it
      stops early only at an empty or a closed channel. */
  method Drain(q: Queue, script: seq<Option<Item>>, start: nat) returns (pos: nat, closed: bool, items: seq<Item>)
    requires start <= |script|
    modifies q
    ensures (pos, closed) == DrainEnd(script, start, DRAIN_BATCH_LIMIT)
    ensures items == Arrived(script[start..pos]) && |items| <= DRAIN_BATCH_LIMIT && |items| <= pos - start
    ensures forall k :: start <= k < pos - 1 ==> script[k].Some?
    ensures if closed then pos == |script| && (pos > start ==> script[pos - 1].Some?)
            else |items| == DRAIN_BATCH_LIMIT || (pos > start && script[pos - 1].None?)
    ensures q.View() == PutAll(old(q.View()), items)
  {
    pos, items := start, [];
    for n := 0 to DRAIN_BATCH_LIMIT
      invariant start + n == pos <= |script| && |items| == n
      invariant items == Arrived(script[start..pos]) && q.View() == PutAll(old(q.View()), items)
      invariant forall k :: start <= k < pos ==> script[k].Some?
      invariant DrainEnd(script, pos, DRAIN_BATCH_LIMIT - n) == DrainEnd(script, start, DRAIN_BATCH_LIMIT)
    {
      if pos == |script| {
        return pos, true, items;
      }
      ArrivedMore(script, start, pos);
      var next := script[pos];
      pos := pos + 1;
      if next.None? {
        return pos, false, items;
      }
      PutAllPush(old(q.View()), items, next.value);
      q.EnqueueItem(next.value);
      items := items + [next.value];
    }
    closed := false;
  }

  /** An empty queue has run everything since the last put. */
  lemma EmptyBurst(steps: seq<Step>)
    requires CanRun(steps) && SimpleEmpty(After(steps))
    ensures Burst(steps) == 0
  {}

  /** The waiting phase: the next item ends the wait. */
  method Wait(q: Queue, script: seq<Option<Item>>, start: nat) returns (pos: nat, closed: bool, items: seq<Item>)
    requires start <= |script|
    modifies q
    ensures (pos, closed) == WaitEnd(script, start) && items == Arrived(script[start..pos])
    ensures items == if closed then [] else [script[pos - 1].value]
    ensures forall k :: start <= k < (if closed then pos else pos - 1) ==> script[k].None?
    ensures q.View() == PutAll(old(q.View()), items)
  {
    pos, items := start, [];
    while pos < |script|
      invariant start <= pos <= |script| && Arrived(script[start..pos]) == []
      invariant forall k :: start <= k < pos ==> script[k].None?
      invariant q.View() == old(q.View()) && WaitEnd(script, pos) == WaitEnd(script, start)
    {
      ArrivedMore(script, start, pos);
      var next := script[pos];
      pos := pos + 1;
      if next.Some? {
        PutAllPush(q.View(), [], next.value);
        q.EnqueueItem(next.value);
        return pos, false, [next.value];
      }
    }
    closed := true;
  }

  /** A phase that puts `items` keeps following the simple queue. */
  lemma FollowPhase(q: Lazy, steps: seq<Step>, executed: seq<Item>, script: seq<Option<Item>>, start: nat, pos: nat,
                    items: seq<Item>)
    requires start <= pos <= |script| && (forall x :: x in script && x.Some? ==> x.value.gen == 0)
    requires Follows(q, steps, executed, Arrived(script[..start])) && items == Arrived(script[start..pos])
    requires Burst(steps) + |items| <= DRAIN_BATCH_LIMIT + 1
    ensures Follows(PutAll(q, items), steps + Puts(items), executed, Arrived(script[..pos]))
    ensures Burst(steps + Puts(items)) == Burst(steps) + |items|
  {
    ArrivedParts(script, start, pos);
    ArrivedFresh(script[start..pos]);
    FollowPuts(q, steps, executed, Arrived(script[..start]), items, steps + Puts(items), Arrived(script[..pos]));
  }

  lemma FollowWait(lazy: Lazy, before: seq<Step>, executed: seq<Item>, script: seq<Option<Item>>, start: nat,
                   items: seq<Item>)
    requires start <= |script| && (forall x :: x in script && x.Some? ==> x.value.gen == 0)
    requires Follows(lazy, before, executed, Arrived(script[..start])) && SimpleEmpty(After(before))
    requires items == Arrived(script[start..WaitEnd(script, start).0])
    ensures var (pos, closed) := WaitEnd(script, start);
            && (before + Puts(items), pos, closed) == Waited(before, script, start)
            && Follows(PutAll(lazy, items), before + Puts(items), executed, Arrived(script[..pos]))
            && Burst(before + Puts(items)) <= 1
  {
    WaitedOne(script, start);
    EmptyBurst(before);
    FollowPhase(lazy, before, executed, script, start, WaitEnd(script, start).0, items);
  }

  /** Draining in step with the simple queue. */
  method DrainIn(q: Queue, script: seq<Option<Item>>, start: nat, before: seq<Step>, ghost executed: seq<Item>)
    returns (steps: seq<Step>, pos: nat, closed: bool)
    requires start <= |script| && (forall x :: x in script && x.Some? ==> x.value.gen == 0)
    requires Follows(q.View(), before, executed, Arrived(script[..start])) && Burst(before) <= 1
    modifies q
    ensures (steps, pos, closed) == Drained(before, script, start)
    ensures Follows(q.View(), steps, executed, Arrived(script[..pos]))
  {
    ghost var lazy := q.View();
    var items;
    pos, closed, items := Drain(q, script, start);
    FollowPhase(lazy, before, executed, script, start, pos, items);
    steps := before + Puts(items);
  }

  /** Waiting, when nothing is queued, in step with the simple queue. */
  method WaitIn(q: Queue, script: seq<Option<Item>>, start: nat, before: seq<Step>, ghost executed: seq<Item>)
    returns (steps: seq<Step>, pos: nat, closed: bool)
    requires start <= |script| && (forall x :: x in script && x.Some? ==> x.value.gen == 0)
    requires Follows(q.View(), before, executed, Arrived(script[..start])) && SimpleEmpty(After(before))
    modifies q
    ensures (steps, pos, closed) == Waited(before, script, start)
    ensures Follows(q.View(), steps, executed, Arrived(script[..pos])) && Burst(steps) <= 1
  {
    ghost var lazy := q.View();
    var items;
    pos, closed, items := Wait(q, script, start);
    FollowWait(lazy, before, executed, script, start, items);
    steps := before + Puts(items);
  }

  /** One round of the task. */
  method PlayRound(q: Queue, script: seq<Option<Item>>, start: nat, before: seq<Step>, executed: seq<Item>)
    returns (steps: seq<Step>, pos: nat, closed: bool, executed': seq<Item>)
    requires start <= |script| && (forall x :: x in script && x.Some? ==> x.value.gen == 0)
    requires Follows(q.View(), before, executed, Arrived(script[..start])) && Burst(before) <= 1
    modifies q
    ensures (steps, pos, closed) == Round(before, script, start)
    ensures Follows(q.View(), steps, executed', Arrived(script[..pos])) && (!closed ==> Burst(steps) <= 1)
  {
    executed' := executed;
    steps, pos, closed := DrainIn(q, script, start, before, executed);
    if closed {
      return;
    }
    ghost var lazy := q.View();
    TakeRefines(lazy, After(steps));
    var item := q.Process();
    if item.Some? {
      FollowTake(lazy, steps, executed, Arrived(script[..pos]));
      executed', steps := executed + [item.value.(gen := 0)], steps + [Take];
    } else {
      steps, pos, closed := WaitIn(q, script, pos, steps, executed);
    }
  }

  /** The task of the queue, until every sender is gone. `steps` records its puts
      and takes: those of the schedule, a fair run of the simple queue over the
      items in the order they arrived, which executes exactly what the task does. */
  method Run(script: seq<Option<Item>>) returns (executed: seq<Item>, steps: seq<Step>)
    requires forall x :: x in script && x.Some? ==> x.value.gen == 0
    ensures steps == Schedule([], script, 0) && Fair(steps)
    ensures executed == After(steps).executed && Arrived(script) == After(steps).received
  {
    var q := new Queue();
    var pos, closed := 0, false;
    executed, steps := [], [];
    while !closed
      invariant 0 <= pos <= |script| && (closed ==> pos == |script|)
      invariant Follows(q.View(), steps, executed, Arrived(script[..pos])) && (!closed ==> Burst(steps) <= 1)
      invariant Schedule([], script, 0) == if closed then steps else Schedule(steps, script, pos)
      decreases |script| - pos, !closed
    {
      steps, pos, closed, executed := PlayRound(q, script, pos, steps, executed);
    }
    assert script[..|script|] == script;
  }
}
