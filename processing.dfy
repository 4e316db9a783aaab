/** What processing a batch or a single item does to the item collection and the
    counters, as functions of what the outside calls (conversion, processor, store)
    did. The listener's methods are proved against these. */
module Processing {
  import opened Wrappers
  import opened Exceptions
  import opened ItemStates
  import opened Items
  import opened MongoStore
  import opened Collections

  /** The item collection together with the collection's counters. */
  datatype Work = Work(items: map<string, Item>, counters: Counters)

  /** The state after a step, and what the step threw to its caller, if anything. */
  datatype StepResult = StepResult(work: Work, thrown: Option<Throwable>)

  /** Calls on the worker's transaction context, in order. */
  datatype ContextEvent = Started | TransactionIdSet(id: string) | CorrelationIdSet(id: string) | Invoked | Reset

  /** What the calls made while processing one item did: the conversion of the payload,
      the singleton processor, the delete and the save; `freshId` is the UUID drawn for
      the transaction id. */
  datatype SingleEnv = SingleEnv(convert: Outcome, process: Outcome, delete: Outcome, save: Outcome, freshId: string)

  /** The same for one batch: the conversions, the batch processor and the delete; then
      one `SingleEnv` per item for the fallback. */
  datatype BatchEnv = BatchEnv(convert: Outcome, process: Outcome, delete: Outcome, freshId: string, singles: seq<SingleEnv>)

  /** `getTransactionId(id)`: the given id, or a freshly drawn one when it is null. */
  function TransactionId(id: Option<string>, freshId: string): (r: string)
    ensures id.Some? ==> r == id.value
    ensures id.None? ==> r == freshId
  {
    OrElse(id, freshId)
  }

  /** The transaction and correlation ids a single item is processed under. */
  function SingleContextIds(it: Item, freshId: string): (r: (string, string))
    ensures it.transaction.Some? ==> r.0 == it.transaction.value
    ensures it.transaction.None? && it.correlation.Some? ==> r.0 == it.correlation.value
    ensures it.correlation.Some? ==> r.1 == it.correlation.value
    ensures it.transaction.None? && it.correlation.None? ==> r.0 == freshId && r.1 == freshId
  {
    var tx := TransactionId(Coalesce(it.transaction, it.correlation), freshId);
    (tx, OrElse(it.correlation, tx))
  }

  /** The context calls of one unit of work: none when conversion failed (the context is
      not touched), otherwise start, the two ids, the processor call and the reset, the
      reset coming from a `finally` and so happening whatever the processor did. */
  function ContextTrace(converted: bool, tx: string, corr: string): seq<ContextEvent>
  {
    if converted then [Started, TransactionIdSet(tx), CorrelationIdSet(corr), Invoked, Reset] else []
  }

  /** The throwable the `try` block of `processSingle` ends with, if any. */
  function SingleFailure(env: SingleEnv): Option<Throwable>
  {
    if env.convert.Fail? then Some(env.convert.thrown)
    else if env.process.Fail? then Some(env.process.thrown)
    else if env.delete.Fail? then Some(env.delete.thrown)
    else None
  }

  /** The in-memory item after `updateState(item, "E", message)`. */
  function Errored(it: Item, message: Option<string>): Item
  {
    it.(state := Some(Id(Error)), stateMessage := message)
  }

  /** `processSingle`: count the attempt; on success delete the item; on failure count
      it, save the whole in-memory item in state "E" with the failure's message (an
      upsert), and count it done; a failed save escapes to the caller. */
  function ProcessedSingle(w: Work, it: Item, env: SingleEnv): (r: StepResult)
    requires Fetched(it)
    ensures r.work.counters.total == w.counters.total + 1
    ensures r.thrown.Some? ==> SingleFailure(env).Some? && env.save.Fail? && r.work.items == w.items
    ensures forall k :: k in w.items && k != it.id.value ==> k in r.work.items && r.work.items[k] == w.items[k]
    ensures r.work.items.Keys <= w.items.Keys + {it.id.value}
  {
    var id := it.id.value;
    var attempted := w.counters.(total := w.counters.total + 1);
    match SingleFailure(env)
    case None =>
      StepResult(Work(w.items - {id}, attempted.(pending := Decremented(attempted.pending, 1))), None)
    case Some(e) =>
      var failed := attempted.(failed := attempted.failed + 1);
      if env.save.Fail? then StepResult(Work(w.items, failed), Some(env.save.thrown))
      else StepResult(Work(w.items[id := Errored(it, e.message)], failed.(pending := Decremented(failed.pending, 1))), None)
  }

  /** The batch fallback: `processSingle` on each item in order, stopping at the first
      one that throws. */
  function RunSingles(w: Work, batch: seq<Item>, envs: seq<SingleEnv>): (r: StepResult)
    requires AllFetched(batch) && |envs| == |batch|
    ensures w.counters.total < r.work.counters.total <= w.counters.total + |batch| || (batch == [] && r.work == w)
    ensures forall k :: k in w.items && k !in BatchIds(batch) ==> k in r.work.items && r.work.items[k] == w.items[k]
    ensures r.work.items.Keys <= w.items.Keys + (set k | k in BatchIds(batch))
    decreases |batch|
  {
    if batch == [] then StepResult(w, None)
    else
      var first := ProcessedSingle(w, batch[0], envs[0]);
      if first.thrown.Some? then first
      else
        assert AllFetched(batch[1..]);
        assert BatchIds(batch) == [batch[0].id.value] + BatchIds(batch[1..]);
        RunSingles(first.work, batch[1..], envs[1..])
  }

  /** The ids of a batch, in order. */
  function BatchIds(batch: seq<Item>): (ids: seq<string>)
    requires AllFetched(batch)
    ensures |ids| == |batch|
    ensures forall i :: 0 <= i < |batch| ==> batch[i].id == Some(ids[i])
  {
    if batch == [] then [] else [batch[0].id.value] + BatchIds(batch[1..])
  }

  /** True when conversion, the batch processor and the delete all returned normally. */
  predicate BatchSucceeds(env: BatchEnv)
  {
    env.convert.Pass? && env.process.Pass? && env.delete.Pass?
  }

  /** `processBatch`: on success delete every item of the batch and move the counters by
      its size; on any failure fall back to `processSingle` per item when a singleton
      processor is set, and otherwise change nothing (the items stay "B"). */
  function ProcessedBatch(w: Work, batch: seq<Item>, hasSingle: bool, env: BatchEnv): (r: StepResult)
    requires AllFetched(batch) && |env.singles| == |batch|
    ensures r.thrown.Some? ==> !BatchSucceeds(env) && hasSingle
    ensures w.counters.total <= r.work.counters.total <= w.counters.total + |batch|
    ensures forall k :: k in w.items && k !in BatchIds(batch) ==> k in r.work.items && r.work.items[k] == w.items[k]
    ensures r.work.items.Keys <= w.items.Keys + (set k | k in BatchIds(batch))
  {
    if BatchSucceeds(env) then
      var n := |batch|;
      StepResult(Work(w.items - (set k | k in BatchIds(batch)),
                      w.counters.(total := w.counters.total + n, pending := Decremented(w.counters.pending, n))), None)
    else if hasSingle then RunSingles(w, batch, env.singles)
    else StepResult(w, None)
  }

  /** The number of items whose processing fails in `envs`. */
  function FailureCount(envs: seq<SingleEnv>): nat
  {
    if envs == [] then 0 else (if SingleFailure(envs[0]).Some? then 1 else 0) + FailureCount(envs[1..])
  }

  /** Single processing: `totalItems` counts the attempt whatever happens; on success the
      item is gone and the gauge drops by one; on failure `failedItems` goes up by one and,
      if the save goes through, the item is stored in state "E" with the failure's message
      and the gauge drops by one; if the save fails nothing is stored and the save's
      throwable escapes. */
  lemma SingleEffects(w: Work, it: Item, env: SingleEnv)
    requires Fetched(it) && CountersValid(w.counters)
    ensures var r := ProcessedSingle(w, it, env);
      var id := it.id.value;
      && r.work.counters.total == w.counters.total + 1
      && (SingleFailure(env).None? ==>
            && r.thrown.None? && id !in r.work.items && r.work.items == w.items - {id}
            && r.work.counters.failed == w.counters.failed
            && r.work.counters.pending == Decremented(w.counters.pending, 1))
      && (SingleFailure(env).Some? ==> r.work.counters.failed == w.counters.failed + 1)
      && (SingleFailure(env).Some? && env.save.Pass? ==>
            && r.thrown.None?
            && r.work.items == w.items[id := it.(state := Some(Id(Error)), stateMessage := SingleFailure(env).value.message)]
            && r.work.counters.pending == Decremented(w.counters.pending, 1))
      && (SingleFailure(env).Some? && env.save.Fail? ==>
            r.thrown == Some(env.save.thrown) && r.work.items == w.items && r.work.counters.pending == w.counters.pending)
  {
  }

  /** Processing keeps every document under its own id and the counters in range. */
  lemma SingleKeepsInvariants(w: Work, it: Item, env: SingleEnv)
    requires Fetched(it) && WellKeyed(w.items) && CountersValid(w.counters)
    ensures var r := ProcessedSingle(w, it, env);
      WellKeyed(r.work.items) && CountersValid(r.work.counters)
  {
  }

  /** The fallback keeps the invariants too: in particular no sequence of per-item
      outcomes makes a counter negative. */
  lemma {:induction false} RunSinglesKeepsInvariants(w: Work, batch: seq<Item>, envs: seq<SingleEnv>)
    requires AllFetched(batch) && |envs| == |batch|
    requires WellKeyed(w.items) && CountersValid(w.counters)
    ensures var r := RunSingles(w, batch, envs);
      WellKeyed(r.work.items) && CountersValid(r.work.counters)
    decreases |batch|
  {
    if batch != [] {
      SingleKeepsInvariants(w, batch[0], envs[0]);
      var r := ProcessedSingle(w, batch[0], envs[0]);
      if r.thrown.None? {
        assert AllFetched(batch[1..]);
        RunSinglesKeepsInvariants(r.work, batch[1..], envs[1..]);
      }
    }
  }

  /** After a fallback that ran to the end, `totalItems` went up by the batch size and
      `failedItems` by the number of items that failed: the counters reflect the
      per-item outcomes, not one batch outcome. */
  lemma {:induction false} RunSinglesTally(w: Work, batch: seq<Item>, envs: seq<SingleEnv>)
    requires AllFetched(batch) && |envs| == |batch|
    ensures var r := RunSingles(w, batch, envs);
      r.thrown.None? ==>
        && r.work.counters.total == w.counters.total + |batch|
        && r.work.counters.failed == w.counters.failed + FailureCount(envs)
    decreases |batch|
  {
    if batch != [] {
      var r := ProcessedSingle(w, batch[0], envs[0]);
      if r.thrown.None? {
        assert AllFetched(batch[1..]);
        RunSinglesTally(r.work, batch[1..], envs[1..]);
      }
    }
  }

  /** Batch processing: success deletes exactly the batch's documents and moves the
      counters by its size; a failure with a singleton processor is the per-item
      fallback; a failure without one changes neither the store nor the counters. */
  lemma BatchEffects(w: Work, batch: seq<Item>, hasSingle: bool, env: BatchEnv)
    requires AllFetched(batch) && |env.singles| == |batch|
    ensures var r := ProcessedBatch(w, batch, hasSingle, env);
      && (BatchSucceeds(env) ==>
            && r.thrown.None?
            && (forall k :: k in r.work.items <==> k in w.items && forall i :: 0 <= i < |batch| ==> batch[i].id != Some(k))
            && (forall k :: k in r.work.items ==> r.work.items[k] == w.items[k])
            && r.work.counters.total == w.counters.total + |batch|
            && r.work.counters.failed == w.counters.failed
            && r.work.counters.pending == Decremented(w.counters.pending, |batch|))
      && (!BatchSucceeds(env) && hasSingle ==> r == RunSingles(w, batch, env.singles))
      && (!BatchSucceeds(env) && !hasSingle ==> r == StepResult(w, None))
  {
    if BatchSucceeds(env) {
      var ids := BatchIds(batch);
      forall k ensures (k in set j | j in ids) <==> exists i :: 0 <= i < |batch| && batch[i].id == Some(k) {
        if k in ids {
          var i :| 0 <= i < |ids| && ids[i] == k;
          assert batch[i].id == Some(k);
        }
      }
    }
  }

  /** The single path runs under the item's own transaction id, else its correlation id,
      else a fresh one; and under its correlation id, else that transaction id. */
  lemma SingleContextChoice(it: Item, freshId: string)
    ensures var (tx, corr) := SingleContextIds(it, freshId);
      && (it.transaction.Some? ==> tx == it.transaction.value)
      && (it.transaction.None? && it.correlation.Some? ==> tx == it.correlation.value)
      && (it.transaction.None? && it.correlation.None? ==> tx == freshId)
      && (it.correlation.Some? ==> corr == it.correlation.value)
      && (it.correlation.None? ==> corr == tx)
  {
  }

  /** The causal chain survives the queue: an item inserted by `insertManaged` under a
      context with a transaction id, then claimed (which touches only `session`) and read
      back by the confirm query, is processed under that context's ids, with the
      correlation id defaulting to the transaction id. The worker holds the copy read
      before the mark, so its state is still "N". */
  lemma {:induction false} ProducerContextRestored(ctx: TransactionContext, payload: Option<Payload>, newId: string,
                                                   own: string, freshId: string)
    requires ctx.transactionId.Some?
    ensures var inserted := Item(Some(newId), payload, Some(Id(New)), None, None, ctx.transactionId, ctx.correlationId, None);
      var fetched := inserted.(session := Some(own));
      SingleContextIds(fetched, freshId) == (ctx.transactionId.value, OrElse(ctx.correlationId, ctx.transactionId.value))
  {
  }

  /** What the context calls of `ProcessSingle` and `ProcessBatch` come to: those methods
      build their trace along their control flow and are proved to end with exactly
      `ContextTrace`, so the context is started first and reset last whenever it is
      started, the processor is only called inside it, and it is not touched at all when
      conversion fails. */
  lemma ContextAlwaysReset(converted: bool, tx: string, corr: string)
    ensures var t := ContextTrace(converted, tx, corr);
      && (Started in t ==> t[0] == Started && t[|t| - 1] == Reset)
      && (Invoked in t ==> Started in t)
      && (t == [] <==> !converted)
  {
  }

  /** A failed item comes back: once its failure is saved, the retry update of the
      session that claimed it makes it new and unowned again, keeping the failure's
      message, so that a later claim can take it. */
  lemma FailedItemComesBack(w: Work, it: Item, env: SingleEnv, own: string)
    requires Fetched(it) && it.session == Some(own) && SingleFailure(env).Some? && env.save.Pass?
    ensures var id := it.id.value;
      var after := Retried(ProcessedSingle(w, it, env).work.items, own);
      && id in after
      && after[id] == it.(state := Some(Id(New)), session := None, stateMessage := SingleFailure(env).value.message)
      && InState(after[id], New) && after[id].session.None?
  {
  }
}
