/** `MongoRequestInterceptor`: a collection whose processor slots hold a wrapper that
    reports every unit of work to the service's work manager around the caller's own
    processor. The inherited collection is the `base` field here; the listener works on
    `base`, whose slots hold the wrapper. */
module Interceptor {
  import opened Wrappers
  import opened Exceptions
  import opened Collections

  /** The calls the wrapper makes, in order: naming the operation on the transaction
      context, `startRequest`, the caller's processor, `completeRequest(isException)`. */
  datatype WorkEvent = OperationSet(operation: string) | RequestStarted | ProcessorCalled | RequestCompleted(isException: bool)

  /** What one wrapped call returns to the listener, and the calls it made. */
  datatype Intercepted = Intercepted(outcome: Outcome, events: seq<WorkEvent>)

  const BATCH_PREFIX := "Failed to process batch of items: "
  const SINGLE_PREFIX := "Failed to process item: "

  /** `getOperation()`: the collection's name under "mongo/". */
  function Operation(name: string): (op: string)
    ensures |op| == |name| + 6 && op[..6] == "mongo/" && op[6..] == name
  {
    "mongo/" + name
  }

  /** What `startRequest` throws when the work manager refuses: an application
      exception as it is, any other exception as an unexpected application exception
      with the same message. */
  function StartFailure(t: Throwable): (r: Throwable)
    ensures r.ApplicationException?
    ensures t.ApplicationException? ==> r == t
    ensures t.OtherThrowable? ==> r == ApplicationException(Unexpected, t.message)
  {
    if t.ApplicationException? then t else ApplicationException(Unexpected, t.message)
  }

  /** What the wrapper throws when the caller's processor throws `t`: an application
      exception as it is, anything else as an unexpected application exception whose
      message is `prefix` followed by `t`'s message. */
  function ProcessorFailure(prefix: string, t: Throwable): (r: Throwable)
    ensures r.ApplicationException?
    ensures t.ApplicationException? ==> r == t
    ensures t.OtherThrowable? ==>
      && r.kind == Unexpected && r.message.Some?
      && |r.message.value| == |prefix| + |MessageText(t.message)|
      && r.message.value[..|prefix|] == prefix && r.message.value[|prefix|..] == MessageText(t.message)
  {
    if t.ApplicationException? then t else ApplicationException(Unexpected, Some(prefix + MessageText(t.message)))
  }

  /** One wrapped call: name the operation, start the request (a refusal ends the call
      with no completion), call the caller's processor in `slot` (an empty slot throws a
      null-pointer exception, whose message is null), then complete the request with
      whether the call threw. A failure of `completeRequest` is logged and swallowed,
      so it does not appear. */
  function Intercept(name: string, prefix: string, slot: Option<Processor>, start: Outcome, user: Outcome): (r: Intercepted)
    ensures |r.events| >= 2 && r.events[0] == OperationSet(Operation(name)) && r.events[1] == RequestStarted
    ensures r.outcome.Fail? ==> r.outcome.thrown.ApplicationException?
    ensures start.Fail? ==> r.outcome == Fail(StartFailure(start.thrown)) && |r.events| == 2
    ensures start.Pass? ==> r.events[|r.events| - 1] == RequestCompleted(r.outcome.Fail?)
    ensures (RequestCompleted(true) in r.events || RequestCompleted(false) in r.events) <==> start.Pass?
    ensures (ProcessorCalled in r.events) <==> start.Pass? && slot.Some?
    ensures start.Pass? && slot.Some? ==>
      r.outcome == (if user.Pass? then Pass else Fail(ProcessorFailure(prefix, user.thrown)))
    ensures start.Pass? && slot.None? ==> r.outcome == Fail(ApplicationException(Unexpected, Some(prefix + "null")))
  {
    var begun := [OperationSet(Operation(name)), RequestStarted];
    if start.Fail? then
      Intercepted(Fail(StartFailure(start.thrown)), begun)
    else if slot.None? then
      var outcome := Fail(ProcessorFailure(prefix, OtherThrowable(None)));
      Intercepted(outcome, begun + [RequestCompleted(true)])
    else
      var outcome := if user.Pass? then Pass else Fail(ProcessorFailure(prefix, user.thrown));
      Intercepted(outcome, begun + [ProcessorCalled, RequestCompleted(outcome.Fail?)])
  }

  class MongoRequestInterceptor {
    /** The inherited collection: name, capacity, queues, counters and the slots the
        listener reads. */
    const base: MongoCollection
    /** The caller's processors, which shadow the inherited slots. */
    var batchProcessor: Option<Processor>
    var singletonProcessor: Option<Processor>

    constructor (name: string, capacity: nat)
      ensures fresh(base) && base.Valid() && base.name == name && base.capacity == capacity
      ensures base.batchProcessor.None? && base.singletonProcessor.None?
      ensures batchProcessor.None? && singletonProcessor.None?
    {
      base := new MongoCollection(name, capacity);
      batchProcessor, singletonProcessor := None, None;
    }

    /** `batch(p)`: keep `p`, and install the wrapper in the inherited batch slot, even
        when `p` is null. */
    method Batch(p: Option<Processor>) returns (c: MongoRequestInterceptor)
      modifies this`batchProcessor, base`batchProcessor
      ensures c == this && batchProcessor == p && base.batchProcessor == Some(InterceptorWrapper)
    {
      batchProcessor := p;
      var b := base.Batch(Some(InterceptorWrapper));
      c := this;
    }

    /** `single(p)`: keep `p`, and install the wrapper in the inherited singleton slot. */
    method Single(p: Option<Processor>) returns (c: MongoRequestInterceptor)
      modifies this`singletonProcessor, base`singletonProcessor
      ensures c == this && singletonProcessor == p && base.singletonProcessor == Some(InterceptorWrapper)
    {
      singletonProcessor := p;
      var b := base.Single(Some(InterceptorWrapper));
      c := this;
    }

    /** `startRequest(operation)`: name the operation on the context, then notify the
        work manager; its refusal is rethrown as an application exception. */
    method StartRequest(operation: string, manager: Outcome) returns (thrown: Option<Throwable>, events: seq<WorkEvent>)
      ensures events == [OperationSet(operation), RequestStarted]
      ensures thrown.Some? <==> manager.Fail?
      ensures manager.Fail? ==> thrown == Some(StartFailure(manager.thrown))
    {
      events := [OperationSet(operation), RequestStarted];
      thrown := None;
      if manager.Fail? {
        thrown := Some(StartFailure(manager.thrown));
      }
    }

    /** `completeRequest(isException)`: notify the work manager; whatever it throws is
        logged, so the call never throws. */
    method CompleteRequest(isException: bool, manager: Outcome) returns (events: seq<WorkEvent>)
      ensures events == [RequestCompleted(isException)]
    {
      events := [RequestCompleted(isException)];
    }

    /** The body shared by `processBatch` and `processSingle`: start the request, call
        the processor in `slot`, record in `isException` whether it threw, and complete
        the request in the `finally`. */
    method Wrap(prefix: string, slot: Option<Processor>, start: Outcome, user: Outcome, complete: Outcome)
      returns (outcome: Outcome, events: seq<WorkEvent>)
      ensures Intercepted(outcome, events) == Intercept(base.name, prefix, slot, start, user)
    {
      var isException := false;
      var thrown;
      thrown, events := StartRequest(Operation(base.name), start);
      if thrown.Some? {
        outcome := Fail(thrown.value);
        return;
      }
      if slot.None? {
        isException := true;
        outcome := Fail(ProcessorFailure(prefix, OtherThrowable(None)));
      } else {
        events := events + [ProcessorCalled];
        if user.Fail? {
          isException := true;
          outcome := Fail(ProcessorFailure(prefix, user.thrown));
        } else {
          outcome := Pass;
        }
      }
      var completed := CompleteRequest(isException, complete);
      events := events + completed;
    }

    /** `processBatch(items)`: the wrapped call around the caller's batch processor;
        `complete` is what `completeRequest`'s call to the work manager did, which
        changes nothing. */
    method ProcessBatch(start: Outcome, user: Outcome, complete: Outcome) returns (outcome: Outcome, events: seq<WorkEvent>)
      ensures Intercepted(outcome, events) == Intercept(base.name, BATCH_PREFIX, batchProcessor, start, user)
      ensures events[0] == OperationSet("mongo/" + base.name)
      ensures start.Pass? && batchProcessor.None? ==>
        outcome == Fail(ApplicationException(Unexpected, Some("Failed to process batch of items: null")))
    {
      assert BATCH_PREFIX + "null" == "Failed to process batch of items: null";
      outcome, events := Wrap(BATCH_PREFIX, batchProcessor, start, user, complete);
    }

    /** `processSingle(item)`: the wrapped call around the caller's singleton processor. */
    method ProcessSingle(start: Outcome, user: Outcome, complete: Outcome) returns (outcome: Outcome, events: seq<WorkEvent>)
      ensures Intercepted(outcome, events) == Intercept(base.name, SINGLE_PREFIX, singletonProcessor, start, user)
      ensures events[0] == OperationSet("mongo/" + base.name)
      ensures start.Pass? && singletonProcessor.None? ==>
        outcome == Fail(ApplicationException(Unexpected, Some("Failed to process item: null")))
    {
      assert SINGLE_PREFIX + "null" == "Failed to process item: null";
      outcome, events := Wrap(SINGLE_PREFIX, singletonProcessor, start, user, complete);
    }
  }

  /** Every request the wrapper starts is completed exactly once, as its last call, and
      reports an exception exactly when the wrapped call throws. */
  lemma {:induction false} CompletedOnce(name: string, prefix: string, slot: Option<Processor>, start: Outcome, user: Outcome)
    requires start.Pass?
    ensures var r := Intercept(name, prefix, slot, start, user);
      && (forall i :: 0 <= i < |r.events| - 1 ==> !r.events[i].RequestCompleted?)
      && r.events[|r.events| - 1] == RequestCompleted(r.outcome.Fail?)
  {
    var r := Intercept(name, prefix, slot, start, user);
    assert r.events[..2] == [OperationSet(Operation(name)), RequestStarted];
    if slot.Some? {
      assert |r.events| == 4 && r.events[2] == ProcessorCalled;
    } else {
      assert |r.events| == 3;
    }
  }
}
