/** Any number of threads on one queue: every interleaving of critical sections, waits, wakeups and signals
    (lib/queue.c). A signal is sent after the mutex is released, and a waiter may wake without one. */
module QueueThreads {
  import opened Queue

  /** An element and the thread that added it. */
  datatype Item<T> = Item(adder: nat, value: T)

  /** Where a thread is. An awoken thread is back from pthread_cond_wait and has not looked at the queue again; a
      signalling thread has released the mutex and has not signalled yet. */
  datatype Thread<T> =
    | Idle
    | WaitingToAdd(value: T)
    | AwokenToAdd(value: T)
    | WaitingToTake
    | AwokenToTake
    | SignallingTakers
    | SignallingAdders

  datatype Kind = KIdle | KWaitAdd | KAwokenAdd | KWaitTake | KAwokenTake | KSignalTakers | KSignalAdders

  function KindOf<T>(t: Thread<T>): Kind {
    match t
    case Idle => KIdle
    case WaitingToAdd(_) => KWaitAdd
    case AwokenToAdd(_) => KAwokenAdd
    case WaitingToTake => KWaitTake
    case AwokenToTake => KAwokenTake
    case SignallingTakers => KSignalTakers
    case SignallingAdders => KSignalAdders
  }

  /** `added` and `taken` are history. */
  datatype World<T> = World(q: Ring<Item<T>>, threads: map<nat, Thread<T>>, added: seq<Item<T>>, taken: seq<Item<T>>)

  datatype Action<T> =
    | Add(t: nat, value: T, block: bool)
    | AddAgain(t: nat)
    | Take(t: nat, block: bool)
    | TakeAgain(t: nat)
    | Rouse(t: nat)
    | Signal(t: nat, woken: set<nat>)

  function Those<T>(threads: map<nat, Thread<T>>, k: Kind): set<nat> {
    set t | t in threads && KindOf(threads[t]) == k
  }

  function Count<T>(threads: map<nat, Thread<T>>, k: Kind): nat {
    |Those(threads, k)|
  }

  function Awoken<T>(x: Thread<T>): Thread<T> {
    match x
    case WaitingToAdd(value) => AwokenToAdd(value)
    case WaitingToTake => AwokenToTake
    case _ => x
  }

  function Wake<T>(threads: map<nat, Thread<T>>, woken: set<nat>): map<nat, Thread<T>> {
    map t | t in threads :: if t in woken then Awoken(threads[t]) else threads[t]
  }

  /** The waiters that thread `t` is about to signal. */
  function Targets<T>(w: World<T>, t: nat): set<nat>
    requires t in w.threads
  {
    if w.threads[t] == SignallingTakers then Those(w.threads, KWaitTake) else Those(w.threads, KWaitAdd)
  }

  ghost predicate Enabled<T>(w: World<T>, a: Action<T>) {
    && a.t in w.threads
    && match a
       case Add(t, value, block) => w.threads[t] == Idle
       case AddAgain(t) => w.threads[t].AwokenToAdd?
       case Take(t, block) => w.threads[t] == Idle
       case TakeAgain(t) => w.threads[t] == AwokenToTake
       case Rouse(t) => w.threads[t].WaitingToAdd? || w.threads[t].WaitingToTake?
       // a signal wakes at least one waiter, if there is any
       case Signal(t, woken) =>
         && (w.threads[t] == SignallingTakers || w.threads[t] == SignallingAdders)
         && woken <= Targets(w, t) && (Targets(w, t) != {} ==> woken != {})
  }

  ghost function AddPass<T>(w: World<T>, t: nat, value: T, block: bool): World<T>
    requires WellFormed(w.q)
  {
    var (res, q) := Added(w.q, Item(t, value), block);
    if res == Waits then w.(threads := w.threads[t := WaitingToAdd(value)])
    else if res == Ok then
      World(q, w.threads[t := SignallingTakers], w.added + [Item(t, value)], w.taken)
    else w.(threads := w.threads[t := SignallingTakers])
  }

  ghost function TakePass<T>(w: World<T>, t: nat, block: bool): World<T>
    requires WellFormed(w.q)
  {
    var (res, q, e) := Taken(w.q, block);
    if res == Waits then w.(threads := w.threads[t := WaitingToTake])
    else if e.Some? then World(q, w.threads[t := SignallingAdders], w.added, w.taken + [e.value])
    else w.(threads := w.threads[t := SignallingAdders])
  }

  ghost function Next<T>(w: World<T>, a: Action<T>): World<T>
    requires WellFormed(w.q) && Enabled(w, a)
  {
    match a
    case Add(t, value, block) => AddPass(w, t, value, block)
    case AddAgain(t) => AddPass(w, t, w.threads[t].value, true)
    case Take(t, block) => TakePass(w, t, block)
    case TakeAgain(t) => TakePass(w, t, true)
    case Rouse(t) => w.(threads := w.threads[t := Awoken(w.threads[t])])
    case Signal(t, woken) => w.(threads := Wake(w.threads, woken)[t := Idle])
  }

  // ---- counting ----

  lemma CountUpdate<T>(threads: map<nat, Thread<T>>, t: nat, x: Thread<T>, k: Kind)
    requires t in threads
    ensures Count(threads[t := x], k)
         == Count(threads, k) - (if KindOf(threads[t]) == k then 1 else 0) + (if KindOf(x) == k then 1 else 0)
  {
    var before, after := Those(threads, k), Those(threads[t := x], k);
    if KindOf(x) == k {
      assert after == before + {t};
    } else {
      assert after == before - {t};
    }
    assert t in before <==> KindOf(threads[t]) == k;
  }

  /** The number of threads of kind `k` after a thread of kind `a` turns to kind `b`. */
  function Turned(n: nat, a: Kind, b: Kind, k: Kind): int {
    n - (if a == k then 1 else 0) + (if b == k then 1 else 0)
  }

  lemma CountAll<T>(threads: map<nat, Thread<T>>, t: nat, x: Thread<T>)
    requires t in threads
    ensures forall k :: Count(threads[t := x], k) == Turned(Count(threads, k), KindOf(threads[t]), KindOf(x), k)
  {
    forall k
      ensures Count(threads[t := x], k) == Turned(Count(threads, k), KindOf(threads[t]), KindOf(x), k)
    {
      CountUpdate(threads, t, x, k);
    }
  }

  lemma WakeThose<T>(threads: map<nat, Thread<T>>, woken: set<nat>, waiting: Kind, awoken: Kind, t: nat)
    requires (waiting == KWaitTake && awoken == KAwokenTake) || (waiting == KWaitAdd && awoken == KAwokenAdd)
    requires woken <= Those(threads, waiting) && t in threads
    ensures t in Wake(threads, woken)
    ensures KindOf(Wake(threads, woken)[t]) == if t in woken then awoken else KindOf(threads[t])
  {
    assert t in woken ==> t in Those(threads, waiting);
  }

  /** Which threads are of kind `k` after some of the waiters of one kind are woken. */
  lemma ThoseWoken<T>(threads: map<nat, Thread<T>>, woken: set<nat>, waiting: Kind, awoken: Kind, k: Kind, t: nat)
    requires (waiting == KWaitTake && awoken == KAwokenTake) || (waiting == KWaitAdd && awoken == KAwokenAdd)
    requires woken <= Those(threads, waiting)
    ensures t in woken ==> t in Those(threads, waiting)
    ensures t in Those(Wake(threads, woken), k) <==> if t in woken then k == awoken else t in Those(threads, k)
  {
    assert t in woken ==> t in Those(threads, waiting);
    if t in threads {
      WakeThose(threads, woken, waiting, awoken, t);
    }
  }

  /** Waking some of the waiters of one kind. */
  lemma CountWake<T>(threads: map<nat, Thread<T>>, woken: set<nat>, waiting: Kind, awoken: Kind, k: Kind)
    requires (waiting == KWaitTake && awoken == KAwokenTake) || (waiting == KWaitAdd && awoken == KAwokenAdd)
    requires woken <= Those(threads, waiting)
    ensures Count(Wake(threads, woken), k) ==
              if k == waiting then Count(threads, k) - |woken|
              else if k == awoken then Count(threads, k) + |woken|
              else Count(threads, k)
  {
    var before, after := Those(threads, k), Those(Wake(threads, woken), k);
    forall t: nat
      ensures t in after <==> if t in woken then k == awoken else t in before
      ensures t in woken ==> (t in before <==> k == waiting)
    {
      ThoseWoken(threads, woken, waiting, awoken, k, t);
    }
    WokenSize(before, after, woken, k == waiting, k == awoken);
  }

  lemma WokenSize(before: set<nat>, after: set<nat>, woken: set<nat>, leaves: bool, joins: bool)
    requires !(leaves && joins)
    requires forall t: nat :: t in after <==> if t in woken then joins else t in before
    requires forall t: nat | t in woken :: t in before <==> leaves
    ensures |after| == |before| - (if leaves then |woken| else 0) + (if joins then |woken| else 0)
  {
    if leaves {
      assert after == before - woken;
    } else if joins {
      assert after == before + woken;
    } else {
      assert after == before;
    }
  }

  // ---- no lost wakeup ----

  /** Whoever waits is owed no more elements, or room, than there are threads about to see to it. */
  ghost predicate Lively<T>(w: World<T>) {
    && (Count(w.threads, KWaitTake) > 0 ==>
          w.q.sz <= Count(w.threads, KSignalTakers) + Count(w.threads, KAwokenTake))
    && (Count(w.threads, KWaitAdd) > 0 ==>
          w.q.cap - w.q.sz <= Count(w.threads, KSignalAdders) + Count(w.threads, KAwokenAdd))
  }

  lemma SignalIsLively<T>(w: World<T>, t: nat, woken: set<nat>)
    requires WellFormed(w.q) && Lively(w) && Enabled(w, Signal(t, woken))
    ensures Lively(Next(w, Signal(t, woken)))
  {
    var takers := w.threads[t] == SignallingTakers;
    forall k
      ensures
        var n := if k == (if takers then KWaitTake else KWaitAdd) then Count(w.threads, k) - |woken|
                 else if k == (if takers then KAwokenTake else KAwokenAdd) then Count(w.threads, k) + |woken|
                 else Count(w.threads, k);
        Count(Wake(w.threads, woken), k) == n
    {
      CountWake(w.threads, woken, if takers then KWaitTake else KWaitAdd,
                if takers then KAwokenTake else KAwokenAdd, k);
    }
    assert t !in Targets(w, t);
    assert Wake(w.threads, woken)[t] == w.threads[t];
    CountAll(Wake(w.threads, woken), t, Idle);
    assert |Targets(w, t)| > 0 ==> |woken| >= 1;
  }

  /** A thread that takes or leaves the critical section. */
  lemma PassIsLively<T>(w: World<T>, q: Ring<Item<T>>, t: nat, x: Thread<T>, v: World<T>)
    requires Lively(w) && t in w.threads && v.q == q && v.threads == w.threads[t := x] && q.cap == w.q.cap
    requires w.threads[t].Idle? || w.threads[t].AwokenToAdd? || w.threads[t].AwokenToTake?
    requires q.sz <= w.q.cap && w.q.sz <= w.q.cap
    requires
      || (x == SignallingTakers && q.sz == w.q.sz + 1 && !w.threads[t].AwokenToTake?)
      || (x == SignallingAdders && q.sz + 1 == w.q.sz && !w.threads[t].AwokenToAdd?)
      || (q.sz == w.q.sz && x.WaitingToAdd? && q.sz == q.cap && !w.threads[t].AwokenToTake?)
      || (q.sz == w.q.sz && x == WaitingToTake && q.sz == 0 && !w.threads[t].AwokenToAdd?)
      || (q.sz == w.q.sz && w.threads[t].Idle? && (x == SignallingTakers || x == SignallingAdders))
    ensures Lively(v)
  {
    CountAll(w.threads, t, x);
  }

  lemma AddIsLively<T>(w: World<T>, t: nat, value: T, block: bool)
    requires WellFormed(w.q) && Lively(w) && t in w.threads
    requires w.threads[t].Idle? || (w.threads[t].AwokenToAdd? && block)
    ensures Lively(AddPass(w, t, value, block))
  {
    var v := AddPass(w, t, value, block);
    PassIsLively(w, v.q, t, v.threads[t], v);
  }

  lemma TakeIsLively<T>(w: World<T>, t: nat, block: bool)
    requires WellFormed(w.q) && Lively(w) && t in w.threads
    requires w.threads[t].Idle? || (w.threads[t].AwokenToTake? && block)
    ensures Lively(TakePass(w, t, block))
  {
    var v := TakePass(w, t, block);
    PassIsLively(w, v.q, t, v.threads[t], v);
  }

  lemma StepIsLively<T>(w: World<T>, a: Action<T>)
    requires WellFormed(w.q) && Lively(w) && Enabled(w, a)
    ensures Lively(Next(w, a))
  {
    match a
    case Signal(t, woken) => SignalIsLively(w, t, woken);
    case Add(t, value, block) => AddIsLively(w, t, value, block);
    case AddAgain(t) => AddIsLively(w, t, w.threads[t].value, true);
    case Take(t, block) => TakeIsLively(w, t, block);
    case TakeAgain(t) => TakeIsLively(w, t, true);
    case Rouse(t) => CountAll(w.threads, t, Awoken(w.threads[t]));
  }

  // ---- first in, first out ----

  ghost predicate Fifo<T>(w: World<T>) {
    WellFormed(w.q) && w.added == w.taken + Contents(w.q)
  }

  lemma AddIsFifo<T>(w: World<T>, t: nat, value: T, block: bool)
    requires Fifo(w)
    ensures Fifo(AddPass(w, t, value, block)) && AddPass(w, t, value, block).q.cap == w.q.cap
  {
    AddIsAppend(w.q, Item(t, value), block);
  }

  lemma TakeIsFifo<T>(w: World<T>, t: nat, block: bool)
    requires Fifo(w)
    ensures Fifo(TakePass(w, t, block)) && TakePass(w, t, block).q.cap == w.q.cap
  {
    TakeIsHead(w.q, block);
  }

  lemma StepIsFifo<T>(w: World<T>, a: Action<T>)
    requires Fifo(w) && Enabled(w, a)
    ensures Fifo(Next(w, a)) && Next(w, a).q.cap == w.q.cap
  {
    match a
    case Add(t, value, block) => AddIsFifo(w, t, value, block);
    case AddAgain(t) => AddIsFifo(w, t, w.threads[t].value, true);
    case Take(t, block) => TakeIsFifo(w, t, block);
    case TakeAgain(t) => TakeIsFifo(w, t, true);
    case Rouse(_) =>
    case Signal(_, _) =>
  }

  // ---- every interleaving ----

  ghost predicate Created<T>(w: World<T>, cap: nat) {
    && w.q.cap == cap && |w.q.data| == cap && w.q.lo == w.q.hi == w.q.sz == 0
    && (forall t | t in w.threads :: w.threads[t] == Idle)
    && w.added == w.taken == []
  }

  lemma StepIsWellFormed<T>(w: World<T>, a: Action<T>)
    requires WellFormed(w.q) && Enabled(w, a)
    ensures WellFormed(Next(w, a).q)
  {
    StepIsFifo(w.(added := w.taken + Contents(w.q)), a);
  }

  ghost predicate Runs<T>(w: World<T>, acts: seq<Action<T>>)
    requires WellFormed(w.q)
    decreases |acts|
  {
    acts == [] || (Enabled(w, acts[0]) && (StepIsWellFormed(w, acts[0]); Runs(Next(w, acts[0]), acts[1..])))
  }

  ghost function After<T>(w: World<T>, acts: seq<Action<T>>): World<T>
    requires WellFormed(w.q) && Runs(w, acts)
    decreases |acts|
  {
    if acts == [] then w else (StepIsWellFormed(w, acts[0]); After(Next(w, acts[0]), acts[1..]))
  }

  lemma {:induction false} RunKeeps<T>(w: World<T>, acts: seq<Action<T>>)
    requires Fifo(w) && Lively(w) && Runs(w, acts)
    ensures Fifo(After(w, acts)) && Lively(After(w, acts)) && After(w, acts).q.cap == w.q.cap
    decreases |acts|
  {
    if acts == [] {
    } else {
      StepIsFifo(w, acts[0]);
      StepIsLively(w, acts[0]);
      RunKeeps(Next(w, acts[0]), acts[1..]);
    }
  }

  /** No wakeup is lost, and with room for anything at all the queue never leaves a taker and an adder both waiting
      with nobody about to wake them. */
  lemma NoLostWakeup<T>(w: World<T>, cap: nat, acts: seq<Action<T>>)
    requires Created(w, cap) && Runs(w, acts)
    ensures
      var v := After(w, acts);
      && (Count(v.threads, KWaitTake) > 0 ==>
            v.q.sz <= Count(v.threads, KSignalTakers) + Count(v.threads, KAwokenTake))
      && (Count(v.threads, KWaitAdd) > 0 ==>
            cap - v.q.sz <= Count(v.threads, KSignalAdders) + Count(v.threads, KAwokenAdd))
      && (cap > 0 && Count(v.threads, KWaitTake) > 0 && Count(v.threads, KWaitAdd) > 0 ==>
            Count(v.threads, KSignalTakers) + Count(v.threads, KAwokenTake)
            + Count(v.threads, KSignalAdders) + Count(v.threads, KAwokenAdd) > 0)
  {
    assert Those(w.threads, KWaitTake) == {} && Those(w.threads, KWaitAdd) == {};
    RunKeeps(w, acts);
  }

  function IfBy<T>(p: nat, item: Item<T>): seq<T> {
    if item.adder == p then [item.value] else []
  }

  /** The elements that thread `p` added, in order. */
  function By<T>(p: nat, items: seq<Item<T>>): seq<T> {
    if items == [] then [] else IfBy(p, items[0]) + By(p, items[1..])
  }

  lemma {:induction false} ByAppend<T>(p: nat, a: seq<Item<T>>, b: seq<Item<T>>)
    ensures By(p, a + b) == By(p, a) + By(p, b)
    decreases |a|
  {
    if a == [] {
      assert a + b == b;
    } else {
      var first, rest := IfBy(p, a[0]), a[1..];
      assert (a + b)[0] == a[0] && (a + b)[1..] == rest + b;
      ByAppend(p, rest, b);
      assert By(p, a + b) == first + By(p, rest + b) == first + (By(p, rest) + By(p, b));
      assert first + (By(p, rest) + By(p, b)) == (first + By(p, rest)) + By(p, b);
    }
  }

  /** Nothing is lost, duplicated or reordered: what was taken, followed by what the array holds from `lo`, is what was
      added; so each thread's elements come out in its own order. */
  lemma QueueRefinesFifo<T>(w: World<T>, cap: nat, acts: seq<Action<T>>, p: nat)
    requires Created(w, cap) && Runs(w, acts)
    ensures
      var v := After(w, acts);
      && WellFormed(v.q) && v.q.cap == cap
      && v.added == v.taken + Contents(v.q)
      && By(p, v.added) == By(p, v.taken) + By(p, Contents(v.q))
  {
    assert Those(w.threads, KWaitTake) == {} && Those(w.threads, KWaitAdd) == {};
    RunKeeps(w, acts);
    ByAppend(p, After(w, acts).taken, Contents(After(w, acts).q));
  }
}
