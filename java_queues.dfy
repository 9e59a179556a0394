/** The two `java.util.concurrent` queues of the older pipelines, seen by
    one thread at a time: `LinkedBlockingQueue` with its capacity and
    `ConcurrentLinkedQueue` without one.  A timed `offer` or `poll` that would
    wait finds the queue as it is and gives up at once. */
module JavaQueues {
  import opened JavaLang

  /** `LinkedBlockingQueue` holding at most `capacity` items, head first. */
  class BoundedQueue<E> {
    const capacity: int
    var items: seq<E>

    ghost predicate Valid()
      reads this
    {
      |items| <= capacity
    }

    /** `new LinkedBlockingQueue<>(capacity)`; the JDK refuses a capacity
        below 1, which callers check first. */
    constructor (capacity: int)
      requires capacity >= 1
      ensures Valid() && this.capacity == capacity && items == []
    {
      this.capacity := capacity;
      items := [];
    }

    function Size(): (n: nat)
      reads this
      ensures n == |items|
    {
      |items|
    }

    function RemainingCapacity(): (n: int)
      reads this
      ensures Valid() ==> n >= 0 && (n == 0 <==> |items| == capacity)
      ensures n + Size() == capacity
    {
      capacity - |items|
    }

    /** `offer`: refused when full, otherwise appended at the tail. */
    method Offer(e: E) returns (offered: bool)
      requires Valid()
      modifies this`items
      ensures Valid()
      ensures offered <==> |old(items)| < capacity
      ensures offered ==> items == old(items) + [e]
      ensures !offered ==> items == old(items)
    {
      if |items| < capacity {
        items := items + [e];
        return true;
      }
      return false;
    }

    /** `poll`: the head, or null when empty. */
    method Poll() returns (e: Option<E>)
      requires Valid()
      modifies this`items
      ensures Valid()
      ensures old(items) == [] ==> e == None && items == []
      ensures old(items) != [] ==> e == Some(old(items)[0]) && items == old(items)[1..]
    {
      if items == [] {
        return None;
      }
      e := Some(items[0]);
      items := items[1..];
    }

    /** `drainTo(c, maxElements)`: nothing for a bound below 1, otherwise
        the first `min(maxElements, size)` items, in order. */
    method DrainTo(maxElements: int) returns (drained: seq<E>)
      requires Valid()
      modifies this`items
      ensures Valid()
      ensures |drained| == (if maxElements <= 0 then 0 else Min(maxElements, |old(items)|))
      ensures old(items) == drained + items
    {
      var n := if maxElements <= 0 then 0 else Min(maxElements, |items|);
      drained := items[..n];
      items := items[n..];
      assert old(items) == drained + items;
    }
  }

  /** `ConcurrentLinkedQueue`, head first. */
  class LinkedQueue<E> {
    var items: seq<E>

    constructor ()
      ensures items == []
    {
      items := [];
    }

    /** `size()`.  `ConcurrentLinkedQueue` and `LinkedBlockingQueue` share
        no class here, only the `java.util.Queue` interface, which is not
        part of this model, so each queue kind states its own size. */
    function Size(): (n: nat)
      reads this
      ensures n == |items|
    {
      |items|
    }

    /** `add`: always appends at the tail. */
    method Add(e: E)
      modifies this`items
      ensures items == old(items) + [e]
    {
      items := items + [e];
    }

    /** `poll`: the head, or null when empty. */
    method Poll() returns (e: Option<E>)
      modifies this`items
      ensures old(items) == [] ==> e == None && items == []
      ensures old(items) != [] ==> e == Some(old(items)[0]) && items == old(items)[1..]
    {
      if items == [] {
        return None;
      }
      e := Some(items[0]);
      items := items[1..];
    }
  }

  /** The loop the older pipelines share: poll until the queue is empty,
      stopping as soon as `batchSize` entries are collected.  It takes the
      first `min(batchSize, size)` entries, in order, and leaves the rest. */
  method CollectUpTo<E>(q: LinkedQueue<E>, batchSize: nat) returns (toSave: seq<E>)
    requires batchSize >= 1
    modifies q`items
    ensures |toSave| == Min(batchSize, |old(q.items)|)
    ensures old(q.items) == toSave + q.items
  {
    toSave := [];
    while true
      invariant old(q.items) == toSave + q.items
      invariant |toSave| < batchSize
      decreases |q.items|
    {
      var entry := q.Poll();
      if entry.None? {
        return;
      }
      toSave := toSave + [entry.value];
      if |toSave| >= batchSize {
        return;
      }
    }
  }
}
