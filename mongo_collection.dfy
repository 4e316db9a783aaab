/** `MongoCollection`: a registered collection, its processor slots, its two bounded
    queues and its counters. */
module Collections {
  import opened Wrappers
  import opened Numbers
  import opened Items

  /** What a processor slot holds: a processor the caller supplied, or the wrapper
      that a request interceptor installs in front of the caller's processor. */
  datatype Processor = Supplied(handle: nat) | InterceptorWrapper

  /** The three counters: `totalItems`, `failedItems` and the clamped `pendingItems`. */
  datatype Counters = Counters(total: int, failed: int, pending: int)

  /** The counters start at 0; `pendingItems` is a `ClampedCounter` over `[0, Long.MAX_VALUE]`. */
  predicate CountersValid(c: Counters)
  {
    c.total >= 0 && c.failed >= 0 && 0 <= c.pending <= LONG_MAX
  }

  /** `ClampedCounter.decrement(n)` on `pendingItems`. */
  function Decremented(pending: int, n: nat): (r: int)
    ensures 0 <= r <= LONG_MAX
    ensures 0 <= pending <= LONG_MAX ==> r <= pending
    ensures n <= pending <= LONG_MAX ==> r == pending - n
  {
    Clamp(pending - n, 0, LONG_MAX)
  }

  /** `ClampedCounter.reset(v)` on `pendingItems`. */
  function ResetTo(v: int): (r: int)
    ensures 0 <= r <= LONG_MAX
    ensures 0 <= v <= LONG_MAX ==> r == v
  {
    Clamp(v, 0, LONG_MAX)
  }

  /** No sequence of decrements takes the pending gauge below zero. */
  lemma {:induction false} DecrementsNeverNegative(pending: int, steps: seq<nat>)
    requires 0 <= pending <= LONG_MAX
    ensures 0 <= DecrementAll(pending, steps) <= pending
  {
    if steps != [] {
      DecrementsNeverNegative(Decremented(pending, steps[0]), steps[1..]);
    }
  }

  function DecrementAll(pending: int, steps: seq<nat>): int
    decreases steps
  {
    if steps == [] then pending else DecrementAll(Decremented(pending, steps[0]), steps[1..])
  }

  /** The total of a sequence of decrements. */
  function Sum(steps: seq<nat>): nat
  {
    if steps == [] then 0 else steps[0] + Sum(steps[1..])
  }

  /** Decrementing the pending gauge in steps ends where decrementing by their total at
      once does: the clamp at zero loses nothing in between. */
  lemma {:induction false} DecrementsCompose(pending: int, steps: seq<nat>)
    requires 0 <= pending <= LONG_MAX
    ensures DecrementAll(pending, steps) == Decremented(pending, Sum(steps))
  {
    if steps != [] {
      DecrementsCompose(Decremented(pending, steps[0]), steps[1..]);
    }
  }

  /** True of a batch in which every item came back from the store. */
  predicate AllFetched(items: seq<Item>)
  {
    forall i :: 0 <= i < |items| ==> Fetched(items[i])
  }

  class MongoCollection {
    const name: string
    /** The capacity both queues are created with. */
    const capacity: nat
    var batchProcessor: Option<Processor>
    var singletonProcessor: Option<Processor>
    var batchQueue: seq<seq<Item>>
    var singletonQueue: seq<Item>
    var totalItems: int
    var failedItems: int
    var pendingItems: int

    function Counts(): Counters
      reads this
    {
      Counters(totalItems, failedItems, pendingItems)
    }

    /** The queues stay within their capacity, the counters within their range, and
        every queued item carries its id. */
    ghost predicate Valid()
      reads this
    {
      && |batchQueue| <= capacity
      && |singletonQueue| <= capacity
      && CountersValid(Counts())
      && (forall i :: 0 <= i < |batchQueue| ==> AllFetched(batchQueue[i]))
      && AllFetched(singletonQueue)
    }

    /** A new collection: both slots empty, both queues empty with capacity `capacity`,
        every counter 0. */
    constructor (name: string, capacity: nat)
      ensures Valid()
      ensures this.name == name && this.capacity == capacity
      ensures batchProcessor.None? && singletonProcessor.None?
      ensures batchQueue == [] && singletonQueue == []
      ensures Counts() == Counters(0, 0, 0)
    {
      this.name := name;
      this.capacity := capacity;
      batchProcessor, singletonProcessor := None, None;
      batchQueue, singletonQueue := [], [];
      totalItems, failedItems, pendingItems := 0, 0, 0;
    }

    /** `batch(p)`: sets the batch slot only and returns this collection. */
    method Batch(p: Option<Processor>) returns (c: MongoCollection)
      modifies this`batchProcessor
      ensures c == this && batchProcessor == p
    {
      batchProcessor := p;
      c := this;
    }

    /** `single(p)`: sets the singleton slot only and returns this collection. */
    method Single(p: Option<Processor>) returns (c: MongoCollection)
      modifies this`singletonProcessor
      ensures c == this && singletonProcessor == p
    {
      singletonProcessor := p;
      c := this;
    }
  }
}
