/** The bounded queue between threads: a circular array (lib/queue.c). */
module Queue {
  import opened Options

  /** What one pass through the critical section comes to; `Waits` means that the caller blocks on its condition
      variable and will try again. */
  datatype Result = Ok | Full | Empty | Waits

  /** The fields of queue_t that the critical sections change. */
  datatype Ring<T> = Ring(cap: nat, lo: nat, hi: nat, sz: nat, data: seq<T>)

  ghost predicate WellFormed<T>(q: Ring<T>) {
    && |q.data| == q.cap && q.sz <= q.cap
    && (q.cap > 0 ==> q.lo < q.cap && q.hi == (q.lo + q.sz) % q.cap)
  }

  /** What the queue holds, oldest first. */
  function Contents<T>(q: Ring<T>): (s: seq<T>)
    requires WellFormed(q)
    ensures |s| == q.sz
  {
    if q.lo + q.sz <= q.cap then q.data[q.lo..q.lo + q.sz]
    else if q.cap == 0 then []
    else q.data[q.lo..] + q.data[..q.lo + q.sz - q.cap]
  }

  /** One pass of queue_add. */
  function Added<T>(q: Ring<T>, e: T, block: bool): (Result, Ring<T>)
    requires WellFormed(q)
  {
    if q.cap == q.sz then (if block then Waits else Full, q)
    else (Ok, q.(data := q.data[q.hi := e], hi := (q.hi + 1) % q.cap, sz := q.sz + 1))
  }

  /** One pass of queue_take. */
  function Taken<T>(q: Ring<T>, block: bool): (Result, Ring<T>, Option<T>)
    requires WellFormed(q)
  {
    if q.sz == 0 then (if block then Waits else Empty, q, None)
    else (Ok, q.(lo := (q.lo + 1) % q.cap, sz := q.sz - 1), Some(q.data[q.lo]))
  }

  lemma WrapOnce(x: nat, cap: nat)
    requires cap > 0 && x < 2 * cap
    ensures x % cap == if x < cap then x else x - cap
  {
  }

  lemma ContentsAt<T>(q: Ring<T>, i: nat)
    requires WellFormed(q) && i < q.sz
    ensures Contents(q)[i] == q.data[(q.lo + i) % q.cap]
  {
    WrapOnce(q.lo + i, q.cap);
  }

  lemma AddedAt<T>(q: Ring<T>, e: T, block: bool, i: nat)
    requires WellFormed(q) && WellFormed(Added(q, e, block).1) && q.sz < q.cap && i <= q.sz
    ensures Contents(Added(q, e, block).1)[i] == if i < q.sz then Contents(q)[i] else e
  {
    ContentsAt(Added(q, e, block).1, i);
    WrapOnce(q.lo + i, q.cap);
    WrapOnce(q.lo + q.sz, q.cap);
    if i < q.sz {
      ContentsAt(q, i);
    }
  }

  lemma HeadAt<T>(q: Ring<T>)
    requires WellFormed(q) && q.sz > 0
    ensures Contents(q)[0] == q.data[q.lo]
  {
  }

  /** After a take, what was at `i` is at `i - 1`. */
  lemma TakenAt<T>(q: Ring<T>, block: bool, i: nat)
    requires WellFormed(q) && WellFormed(Taken(q, block).1) && 0 < i < q.sz
    ensures Contents(q)[i] == Contents(Taken(q, block).1)[i - 1]
  {
    var q' := Taken(q, block).1;
    ContentsAt(q, i);
    ContentsAt(q', i - 1);
    WrapNext(q.lo, i, q.cap);
  }

  lemma WrapNext(lo: nat, i: nat, cap: nat)
    requires lo < cap && 0 < i < cap
    ensures ((lo + 1) % cap + (i - 1)) % cap == (lo + i) % cap
  {
    WrapOnce(lo + 1, cap);
    WrapOnce(lo + i, cap);
    if lo + 1 == cap {
      WrapOnce(i - 1, cap);
    }
  }

  /** An element is added at the end, exactly when there is room; otherwise the caller is told, or waits. */
  lemma AddIsAppend<T>(q: Ring<T>, e: T, block: bool)
    requires WellFormed(q)
    ensures
      var (res, q') := Added(q, e, block);
      && WellFormed(q') && q'.cap == q.cap
      && res == (if |Contents(q)| < q.cap then Ok else if block then Waits else Full)
      && Contents(q') == if res == Ok then Contents(q) + [e] else Contents(q)
  {
    if q.sz < q.cap {
      var q' := Added(q, e, block).1;
      WrapOnce(q.lo + q.sz, q.cap);
      WrapOnce(q.hi + 1, q.cap);
      WrapOnce(q.lo + q.sz + 1, q.cap);
      assert WellFormed(q');
      forall i: nat | i < q'.sz
        ensures Contents(q')[i] == (Contents(q) + [e])[i]
      {
        AddedAt(q, e, block, i);
      }
      assert Contents(q') == Contents(q) + [e];
    }
  }

  /** The oldest element is taken, exactly when there is one; otherwise the caller is told, or waits. */
  lemma TakeIsHead<T>(q: Ring<T>, block: bool)
    requires WellFormed(q)
    ensures
      var (res, q', e) := Taken(q, block);
      && WellFormed(q') && q'.cap == q.cap
      && res == (if Contents(q) != [] then Ok else if block then Waits else Empty)
      && (if res == Ok then e.Some? && Contents(q) == [e.value] + Contents(q') else e.None? && q' == q)
  {
    if q.sz > 0 {
      var (res, q', e) := Taken(q, block);
      WrapOnce(q.lo + 1, q.cap);
      WrapOnce(q.lo + q.sz, q.cap);
      WrapOnce(q'.lo + q'.sz, q.cap);
      assert WellFormed(q');
      forall i: nat | i < q.sz
        ensures Contents(q)[i] == ([e.value] + Contents(q'))[i]
      {
        if i == 0 {
          HeadAt(q);
        } else {
          TakenAt(q, block, i);
        }
      }
      assert Contents(q) == [e.value] + Contents(q');
    }
  }

  class BlockingQueue<T(0)> {
    const cap: nat
    var lo: nat
    var hi: nat
    var sz: nat
    const data: array<T>

    ghost predicate Valid()
      reads this, data
    {
      data.Length == cap && WellFormed(St())
    }

    ghost function St(): Ring<T>
      reads this, data
    {
      Ring(cap, lo, hi, sz, data[..])
    }

    /** queue_create */
    constructor (cap: nat)
      ensures Valid() && fresh(data) && this.cap == cap && Contents(St()) == []
    {
      this.cap := cap;
      lo, hi, sz := 0, 0, 0;
      data := new T[cap];
    }

    /** One pass of queue_add, with the mutex held. */
    method Add(e: T, block: bool) returns (res: Result)
      requires Valid()
      modifies `hi, `sz, data
      ensures Valid() && (res, St()) == Added(old(St()), e, block)
      ensures Contents(St()) == if res == Ok then old(Contents(St())) + [e] else old(Contents(St()))
      ensures res == if |old(Contents(St()))| < cap then Ok else if block then Waits else Full
    {
      AddIsAppend(St(), e, block);
      if cap == sz {
        return if block then Waits else Full;
      }
      data[hi] := e;
      hi := (hi + 1) % cap;
      sz := sz + 1;
      res := Ok;
    }

    /** One pass of queue_take, with the mutex held. */
    method Take(block: bool) returns (res: Result, e: Option<T>)
      requires Valid()
      modifies `lo, `sz
      ensures Valid() && (res, St(), e) == Taken(old(St()), block)
      ensures res == if old(Contents(St())) != [] then Ok else if block then Waits else Empty
      ensures res == Ok ==> e.Some? && old(Contents(St())) == [e.value] + Contents(St())
      ensures res != Ok ==> Contents(St()) == old(Contents(St()))
    {
      TakeIsHead(St(), block);
      if sz == 0 {
        return if block then Waits else Empty, None;
      }
      e := Some(data[lo]);
      lo := (lo + 1) % cap;
      sz := sz - 1;
      res := Ok;
    }
  }
}
