# MongoDB listener work queue, modelled in Dafny

This project models the work-queue protocol of the service harness's MongoDB
listener (`MongoListener`, package `org.melior.service.mongo`). Producers insert
managed items in state "N" (new). Each listener instance holds a session
(a lease document with a heartbeat) and runs, per registered collection, a
listen loop, a number of worker loops, and refresh, retry and recover loops:

- the listen loop claims unowned new items for its session with one conditional
  update, reads back its own new items (at most `fetchSize`), marks them "B"
  (busy) and hands them to the collection's batch queue in batches of
  `batchSize`, or one by one to the singleton queue;
- a worker takes a batch (or an item), converts it, calls the caller's
  processor under a transaction context, deletes the items on success, and on
  failure falls back to item-by-item processing, which stores a failed item
  in state "E" (error) with the failure's message;
- refresh stamps and saves the session's heartbeat and resets the pending
  gauge; retry turns this session's failed items back into new ones;
  recover releases every item held by a session of this collection whose
  heartbeat is too old, then deletes that session.

The store is a `Store` object with two maps: collection name to that item
collection's documents (item id to item document), and session id to session
document. Every listener operation reads and writes only the item collection it
runs for, and its contract says the other collections are unchanged. Each query and update the listener issues is a
function over these maps written from its filter and its update (`Claimed`,
`FindOwnedNew`, `MarkedBusy`, `Retried`, `Released`, `PendingCount`,
`FindStale`). Each loop body is a method of `MongoListener` that changes the
store, the collection (queues and counters) and the session, and is proved
against those functions and against the functions `ProcessedSingle`,
`RunSingles` and `ProcessedBatch`, which say what processing does to the items
and the counters. What the outside world does is a parameter: the current time,
drawn UUIDs, the state supplier's answer (`ListenerState`), whether the service
is suspended, whether the collection supports delays, which documents a
multi-document update reaches and the order a query returns documents in, and
which call (store call, conversion, processor, work manager) throws, as an
`Outcome` or as the index of the first failing store call.

`MongoRequestInterceptor` is a collection whose processor slots hold a
wrapper that reports each unit of work to the service's work manager; it is
modelled by composition (`base` is the inherited collection) and an event
trace of the calls it makes.

When the collection supports delays, the claim filter adds
`eligible <= now` (`MongoListener.java:215-217`). A `$lte` filter does not match
a document that has no `eligible` field, so an item inserted without a delay is
never claimed from such a collection. The model keeps this: with delays
supported, only items whose eligibility time is set and has passed are
claimable (`MongoStore.Claimable`).

## Model

| member | source | states |
|---|---|---|
| ItemStates.Id | source/2.3/java/org/melior/client/mongo/ItemState.java:16-20 | each state's id is one letter and decodes back to that state |
| ItemStates.ParseInvertsId | source/2.3/java/org/melior/client/mongo/ItemState.java:17-19 | exactly "N", "B" and "E" name a state, and each names the state whose id it is |
| ItemStates.IdInjective | source/2.3/java/org/melior/client/mongo/ItemState.java:17-19 | two states with the same id are the same state |
| ItemStates.ExactlyThreeStates | source/2.3/java/org/melior/client/mongo/ItemState.java:16-20 | there are exactly three states (no "done" state; completion is deletion) |
| Items.MongoItem.constructor | source/2.3/java/org/melior/client/mongo/MongoItem.java:41-45 | a new item has no payload and every field null |
| Items.MongoItem.OfState | source/2.3/java/org/melior/client/mongo/MongoItem.java:51-58 | payload and state as given; id, session, transaction, correlation and eligible null |
| Items.MongoItem.InContext | source/2.3/java/org/melior/client/mongo/MongoItem.java:66-78 | as above, with transaction and correlation taken from the context |
| Items.MongoItem.Delayed | source/2.3/java/org/melior/client/mongo/MongoItem.java:87-96 | as the context constructor, and eligible at now plus the delay in milliseconds |
| Items.MongoItem.SetId | source/2.3/java/org/melior/client/mongo/MongoItem.java:110-112 | only the id changes |
| Items.MongoItem.SetSession | source/2.3/java/org/melior/client/mongo/MongoItem.java:126-129 | only the session changes |
| Items.MongoItem.SetState | source/2.3/java/org/melior/service/mongo/MongoListener.java:685 | only the state changes |
| Items.MongoItem.SetStateMessage | source/2.3/java/org/melior/service/mongo/MongoListener.java:686 | only the state message changes |
| Sessions.MongoSession.constructor | source/2.3/java/org/melior/service/mongo/MongoSession.java:21-37 | a new session is inactive, with heartbeat 0 and no id or collection |
| Sessions.MongoSession.SetId | source/2.3/java/org/melior/service/mongo/MongoSession.java:51-53 | only the id changes |
| Sessions.MongoSession.SetCollection | source/2.3/java/org/melior/service/mongo/MongoSession.java:67-70 | only the collection changes |
| Sessions.MongoSession.SetActive | source/2.3/java/org/melior/service/mongo/MongoSession.java:26-27 | the flag changes and the stored document (id, collection, heartbeat) does not: `active` is transient |
| Sessions.MongoSession.SetHeartbeat | source/2.3/java/org/melior/service/mongo/MongoSession.java:101-104 | only the heartbeat changes |
| ListenerConfig.MongoListenerConfig.constructor | source/2.3/java/org/melior/service/mongo/MongoListenerConfig.java:20-32 | defaults: poll 1000 ms, fetch 10000, batch 100, 1 thread, retry 60000 ms, refresh 5000 ms, recover 60000 ms, all within their ranges |
| ListenerConfig.MongoListenerConfig.SetPollInterval | source/2.3/java/org/melior/service/mongo/MongoListenerConfig.java:54-57 | only the poll interval changes, to the value as written (`WrappedMillis`: 32-bit product, then clamp), always within [0, Integer.MAX_VALUE]; it is the saturated interval whenever \|seconds\| is at most 2147483 |
| ListenerConfig.MongoListenerConfig.SetFetchSize | source/2.3/java/org/melior/service/mongo/MongoListenerConfig.java:71-74 | only the fetch size changes, clamped to [1, Integer.MAX_VALUE] |
| ListenerConfig.MongoListenerConfig.SetBatchSize | source/2.3/java/org/melior/service/mongo/MongoListenerConfig.java:88-91 | only the batch size changes, clamped to [1, Integer.MAX_VALUE] |
| ListenerConfig.MongoListenerConfig.SetThreads | source/2.3/java/org/melior/service/mongo/MongoListenerConfig.java:105-108 | only the thread count changes, clamped to [1, Integer.MAX_VALUE] |
| ListenerConfig.MongoListenerConfig.SetRetryInterval | source/2.3/java/org/melior/service/mongo/MongoListenerConfig.java:122-125 | only the retry interval changes, to the value as written (`WrappedMillis`: 32-bit product, then clamp), always within [0, Integer.MAX_VALUE]; it is the saturated interval whenever \|seconds\| is at most 2147483 |
| ListenerConfig.MongoListenerConfig.SetRefreshInterval | source/2.3/java/org/melior/service/mongo/MongoListenerConfig.java:139-142 | only the refresh interval changes, to the value as written (`WrappedMillis`: 32-bit product, then clamp), always within [0, Integer.MAX_VALUE]; it is the saturated interval whenever \|seconds\| is at most 2147483 |
| ListenerConfig.MongoListenerConfig.SetRecoverInterval | source/2.3/java/org/melior/service/mongo/MongoListenerConfig.java:156-159 | only the recover interval changes, to the value as written (`WrappedMillis`: 32-bit product, then clamp), always within [0, Integer.MAX_VALUE]; it is the saturated interval whenever \|seconds\| is at most 2147483 |
| ListenerConfig.WrappedMillis | source/2.3/java/org/melior/service/mongo/MongoListenerConfig.java:56 | the setters as written: 32-bit product, then clamp; the result is within [0, Integer.MAX_VALUE] |
| ListenerConfig.SaturatedMillis | source/2.3/java/org/melior/service/mongo/MongoListenerConfig.java:54-57 | the intended interval: exact when it fits, Integer.MAX_VALUE above, 0 for non-positive seconds |
| ListenerConfig.WrappedAgreesWhenNoOverflow | source/2.3/java/org/melior/service/mongo/MongoListenerConfig.java:56 | for \|seconds\| up to 2147483 the code as written and the intended interval agree |
| ListenerConfig.SaturatedMonotone | source/2.3/java/org/melior/service/mongo/MongoListenerConfig.java:54-57 | a longer interval in seconds never gives a shorter one in milliseconds |
| ListenerConfig.WrappedMillisOverflows | source/2.3/java/org/melior/service/mongo/MongoListenerConfig.java:56 | 2147484 s becomes 0 ms and -3000000 s becomes 1294967296 ms as written; the intended values are Integer.MAX_VALUE and 0 |
| Collections.Decremented | source/2.3/java/org/melior/service/mongo/MongoCollection.java:84 | the pending gauge stays in [0, Long.MAX_VALUE], never grows on a decrement, and drops by exactly n when it can |
| Collections.ResetTo | source/2.3/java/org/melior/service/mongo/MongoCollection.java:84 | a reset stays in [0, Long.MAX_VALUE] and is exact inside it |
| Collections.DecrementsNeverNegative | source/2.3/java/org/melior/service/mongo/MongoCollection.java:84 | no sequence of decrements takes the gauge below 0 or above where it started |
| Collections.DecrementsCompose | source/2.3/java/org/melior/service/mongo/MongoCollection.java:84 | decrementing the gauge in steps ends where one decrement by their total does |
| Collections.MongoCollection.constructor | source/2.3/java/org/melior/service/mongo/MongoCollection.java:67-85 | name and capacity as given (both queues share it), both slots and queues empty, all counters 0 |
| Collections.MongoCollection.Batch | source/2.3/java/org/melior/service/mongo/MongoCollection.java:95-100 | only the batch slot changes; returns the same collection |
| Collections.MongoCollection.Single | source/2.3/java/org/melior/service/mongo/MongoCollection.java:108-113 | only the singleton slot changes; returns the same collection |
| MongoStore.Claimed | source/2.3/java/org/melior/service/mongo/MongoListener.java:211-229 | the claim update keeps the set of documents and each under its own id |
| MongoStore.FindOwnedNew | source/2.3/java/org/melior/service/mongo/MongoListener.java:231-235 | the confirm query returns at most `fetchSize` stored documents, each new and owned by this session |
| MongoStore.MarkedBusy | source/2.3/java/org/melior/service/mongo/MongoListener.java:698-712 | the mark update keeps the documents and their keys |
| MongoStore.Retried | source/2.3/java/org/melior/service/mongo/MongoListener.java:595-600 | the retry update keeps the documents and their keys |
| MongoStore.Released | source/2.3/java/org/melior/service/mongo/MongoListener.java:645-648 | the release update keeps the documents and their keys |
| MongoStore.PendingCount | source/2.3/java/org/melior/service/mongo/MongoListener.java:554-557 | the count of "N" or "B" documents is at most the number of documents |
| MongoStore.FindStale | source/2.3/java/org/melior/service/mongo/MongoListener.java:635-638 | the recovery query returns stored sessions of this collection whose heartbeat is at or before now minus the timeout, and every such session that the store's order lists |
| MongoStore.Store.InsertManaged | source/2.3/java/org/melior/client/mongo/MongoClient.java:228-233 | the named collection gains exactly one new document: state "N", no session, the caller's transaction and correlation ids; nothing else changes |
| MongoStore.Store.InsertManagedDelayed | source/2.3/java/org/melior/client/mongo/MongoClient.java:243-249 | as above, eligible at now plus the delay |
| StoreProperties.ClaimChangesOnlyMatching | source/2.3/java/org/melior/service/mongo/MongoListener.java:211-229 | a claim changes a document iff it is claimable and reached, and then only its session, to the claimant |
| StoreProperties.TwoClaimsPartition | source/2.3/java/org/melior/service/mongo/MongoListener.java:211-229 | two sessions claiming in turn never take each other's documents, and own disjoint sets whose union is every claimable document either update reached |
| StoreProperties.FindReturnsAll | source/2.3/java/org/melior/service/mongo/MongoListener.java:231-235 | with a large enough `fetchSize`, every new document of this session is returned |
| StoreProperties.FindDistinct | source/2.3/java/org/melior/service/mongo/MongoListener.java:231-235 | the confirm query returns each document at most once |
| StoreProperties.MarkChangesOnlyListed | source/2.3/java/org/melior/service/mongo/MongoListener.java:698-712 | the listed documents, and only those, become "B" with their session unchanged |
| StoreProperties.RetryChangesExactly | source/2.3/java/org/melior/service/mongo/MongoListener.java:592-600 | exactly this session's "E" documents change, to "N" with no session |
| StoreProperties.ReleaseChangesExactly | source/2.3/java/org/melior/service/mongo/MongoListener.java:642-649 | exactly the documents of released sessions change, whatever their state, to "N" with no session |
| StoreProperties.ReleasedStep | source/2.3/java/org/melior/service/mongo/MongoListener.java:642-649 | releasing the sessions one update at a time equals releasing them together |
| Batching.Chunks | source/2.3/java/org/melior/service/mongo/MongoListener.java:324-341 | at least one batch, none longer than `batchSize`, and none empty when the list is not |
| Batching.ChunksWhole | source/2.3/java/org/melior/service/mongo/MongoListener.java:324-327 | a list of at most `batchSize` items is queued whole |
| Batching.ChunksFlatten | source/2.3/java/org/melior/service/mongo/MongoListener.java:328-341 | the queued batches, in order, concatenate back to the list |
| Batching.ChunkSizes | source/2.3/java/org/melior/service/mongo/MongoListener.java:328-341 | every batch but the last has exactly `batchSize` items, the last between 1 and `batchSize` |
| Batching.ChunksFromStep | source/2.3/java/org/melior/service/mongo/MongoListener.java:333-339 | one turn of the split loop queues the sublist from `start` to the clamped end and moves on by `batchSize` |
| Batching.ChunksFromStart | source/2.3/java/org/melior/service/mongo/MongoListener.java:324-341 | the split loop started at 0 queues the batches of the whole list |
| Batching.ChunksOf250 | source/2.3/java/org/melior/service/mongo/MongoListener.java:328-341 | 250 items in batches of 100 are queued as 100, 100 and 50 |
| Processing.TransactionId | source/2.3/java/org/melior/service/mongo/MongoListener.java:762-766 | the given id, or the fresh one when it is null |
| Processing.BatchIds | source/2.3/java/org/melior/service/mongo/MongoListener.java:703-709 | the ids of the items, one per item, in order |
| Processing.SingleContextIds | source/2.3/java/org/melior/service/mongo/MongoListener.java:485-488 | the transaction id is the item's transaction, else its correlation, else the fresh id; the correlation id is the item's correlation when set |
| Processing.ProcessedSingle | source/2.3/java/org/melior/service/mongo/MongoListener.java:472-512 | total goes up by one; only a failed save after a failure throws, and then the documents are unchanged; no other document changes |
| Processing.RunSingles | source/2.3/java/org/melior/service/mongo/MongoListener.java:408-420 | total goes up by at least one and at most the batch size (nothing for an empty batch); only the batch's documents change |
| Processing.ProcessedBatch | source/2.3/java/org/melior/service/mongo/MongoListener.java:372-422 | only the fallback throws, and only with a singleton processor after the batch failed; total rises by at most the batch size; only the batch's documents change |
| Processing.SingleEffects | source/2.3/java/org/melior/service/mongo/MongoListener.java:472-512 | total +1 always; success deletes the item, pending -1; failure: failed +1, whole item saved as "E" with the message, pending -1; a failed save stores nothing, leaves pending and throws |
| Processing.SingleKeepsInvariants | source/2.3/java/org/melior/service/mongo/MongoListener.java:472-512 | single processing keeps documents under their ids and counters in range |
| Processing.RunSinglesKeepsInvariants | source/2.3/java/org/melior/service/mongo/MongoListener.java:408-420 | the per-item fallback keeps documents under their ids and counters in range |
| Processing.RunSinglesTally | source/2.3/java/org/melior/service/mongo/MongoListener.java:410-418 | a fallback that runs to the end adds the batch size to total and the number of failing items to failed |
| Processing.BatchEffects | source/2.3/java/org/melior/service/mongo/MongoListener.java:372-422 | success deletes exactly the batch's documents, total +n, pending -n; failure with a singleton processor is the fallback in list order; without one nothing changes (the items stay "B") |
| Processing.SingleContextChoice | source/2.3/java/org/melior/service/mongo/MongoListener.java:485-488 | transaction id = item transaction, else item correlation, else fresh; correlation id = item correlation, else that transaction id |
| Processing.ProducerContextRestored | source/2.3/java/org/melior/service/mongo/MongoListener.java:485-488 | an item inserted under a context with a transaction id, then claimed and read back by the confirm query (still "N": the worker holds the copy read before the mark), is processed under that context's ids |
| Processing.ContextAlwaysReset | source/2.3/java/org/melior/service/mongo/MongoListener.java:388-400 | the trace `ProcessSingle` and `ProcessBatch` are proved to build starts the context first and resets it last, calls the processor only inside it, and is empty iff conversion failed |
| Processing.FailedItemComesBack | source/2.3/java/org/melior/service/mongo/MongoListener.java:503-510 | a failed item, once saved, is made new and unowned again by its session's retry, keeping its message |
| Listener.ClaimRound | source/2.3/java/org/melior/service/mongo/MongoListener.java:211-241 | at most `fetchSize` items are returned and the set of documents is kept; a round fails exactly when the claim or the confirm call throws, or the mark throws after something was found, and a failed mark has written "B" on the found documents it reached |
| Listener.FailedMarkStrandsMarked | source/2.3/java/org/melior/service/mongo/MongoListener.java:231-258 | a found document that a failing mark still wrote is "B" and owned by this live session: the next confirm query does not return it and retry does not touch it |
| Listener.ClaimRoundTakesAllClaimed | source/2.3/java/org/melior/service/mongo/MongoListener.java:211-241 | with no failure and a `fetchSize` at least this session's new documents, every claimable document the claim reaches is returned and ends "B" and owned by this session |
| Listener.ClaimRoundShape | source/2.3/java/org/melior/service/mongo/MongoListener.java:211-239 | a claim round returns at most `fetchSize` new documents of this session; confirming nothing writes nothing after the claim |
| Listener.ClaimRoundMarksFound | source/2.3/java/org/melior/service/mongo/MongoListener.java:231-241 | after a round, every returned item is "B" and owned by this session in the store |
| Listener.ClaimRoundTouchesOnlyOwn | source/2.3/java/org/melior/service/mongo/MongoListener.java:211-241 | a round never changes another session's document; what it changes was claimable or already this session's, and ends up this session's |
| Listener.WithoutSessions | source/2.3/java/org/melior/service/mongo/MongoListener.java:651-655 | the deleted sessions, and only those, are gone; every other session document is unchanged |
| Listener.RecoverSparesLiveSessions | source/2.3/java/org/melior/service/mongo/MongoListener.java:632-655 | recovery never changes a document whose session has a fresh heartbeat |
| Listener.RecoverComplete | source/2.3/java/org/melior/service/mongo/MongoListener.java:632-655 | when the store's order lists every session: after a full recovery no stale session of the collection is left, every other session is kept, and every document a stale session owned is "N" and unowned |
| Listener.MongoListener.constructor | source/2.3/java/org/melior/service/mongo/MongoListener.java:81-95 | no collection is registered |
| Listener.MongoListener.Register | source/2.3/java/org/melior/service/mongo/MongoListener.java:102-117 | registering a name twice returns the same collection; a new one is empty, with queues of `threads` entries |
| Listener.MongoListener.IdsOf | source/2.3/java/org/melior/service/mongo/MongoListener.java:703-709 | one id per item, in order |
| Listener.MongoListener.QueueBatches | source/2.3/java/org/melior/service/mongo/MongoListener.java:314-343 | queued batches plus those left are the list's batches, in order; it stops early only at a full queue |
| Listener.MongoListener.QueueSingles | source/2.3/java/org/melior/service/mongo/MongoListener.java:430-443 | queued items plus those left are the list, in order; it stops early only at a full queue |
| Listener.MongoListener.ClaimStep | source/2.3/java/org/melior/service/mongo/MongoListener.java:192-258 | when suspended nothing changes and the thread goes back to the gate; otherwise this collection ends as `ClaimRound` says (including what a failing mark wrote), the others unchanged, and the confirmed list goes to the batch queue, else the singleton queue, else nowhere |
| Listener.MongoListener.ListenStep | source/2.3/java/org/melior/service/mongo/MongoListener.java:185-262 | the gate lets the thread claim only when the service is not suspended and the session is active; from the claiming phase a round runs whenever the state supplier says active (the session flag is not looked at again), changes this collection as `ClaimRound` says and dispatches to the batch queue, else the singleton queue, else nowhere; dispatching queues batches or items in order until the queue is full |
| Listener.MongoListener.ProcessSingle | source/2.3/java/org/melior/service/mongo/MongoListener.java:472-512 | this collection and the counters end as `ProcessedSingle` says, other collections unchanged; the context is started under the ids `SingleContextIds` chooses iff conversion succeeds, and is reset last whether or not the processor throws |
| Listener.MongoListener.ProcessBatch | source/2.3/java/org/melior/service/mongo/MongoListener.java:372-422 | this collection and the counters end as `ProcessedBatch` says, other collections unchanged; the batch runs under one fresh id for both ids, the context being reset last whether or not the processor throws |
| Listener.MongoListener.ProcessFallback | source/2.3/java/org/melior/service/mongo/MongoListener.java:408-420 | the per-item loop leaves this collection and the counters as `RunSingles` says and stops at the first item that throws |
| Listener.MongoListener.ProcessStep | source/2.3/java/org/melior/service/mongo/MongoListener.java:276-306 | a worker takes the head of the batch queue (batch processor set) or of the singleton queue and processes it; otherwise nothing changes |
| Listener.MongoListener.Refresh | source/2.3/java/org/melior/service/mongo/MongoListener.java:527-570 | heartbeat := now; a saved session is active and stored, and when active the pending gauge is reset to the "N"/"B" count; a failed save makes it inactive and changes nothing else |
| Listener.MongoListener.Retry | source/2.3/java/org/melior/service/mongo/MongoListener.java:583-611 | when active, this collection becomes `Retried` for this session and the others are unchanged; otherwise nothing changes |
| Listener.MongoListener.Recover | source/2.3/java/org/melior/service/mongo/MongoListener.java:623-669 | when active, the stale sessions' documents in this collection are released and then the sessions deleted, up to the first failing store call; with no failure and a store order that lists every session, no stale session is left, live ones are kept, and every document of a stale session is "N" and unowned |
| Listener.MongoListener.ReleaseSessions | source/2.3/java/org/melior/service/mongo/MongoListener.java:642-649 | the release updates done before the first failure, in order, on this collection only |
| Listener.MongoListener.DeleteSessions | source/2.3/java/org/melior/service/mongo/MongoListener.java:651-655 | the session deletes done before the first failure, in order |
| Interceptor.Operation | source/2.3/java/org/melior/service/mongo/MongoRequestInterceptor.java:223-225 | "mongo/" followed by the collection's name |
| Interceptor.StartFailure | source/2.3/java/org/melior/service/mongo/MongoRequestInterceptor.java:180-193 | an application exception is rethrown as is, any other as UNEXPECTED with the same message |
| Interceptor.ProcessorFailure | source/2.3/java/org/melior/service/mongo/MongoRequestInterceptor.java:108-119 | an application exception propagates unchanged, any other becomes UNEXPECTED with the prefix before its message |
| Interceptor.Intercept | source/2.3/java/org/melior/service/mongo/MongoRequestInterceptor.java:97-123 | operation named first; a refused start throws with no processor call and no completion; otherwise completion comes last, flagged iff the call threw; every failure is an application exception |
| Interceptor.CompletedOnce | source/2.3/java/org/melior/service/mongo/MongoRequestInterceptor.java:97-123 | a started request is completed exactly once, as the last call |
| Interceptor.MongoRequestInterceptor.constructor | source/2.3/java/org/melior/service/mongo/MongoRequestInterceptor.java:49-57 | a new collection with the given name and capacity and empty slots |
| Interceptor.MongoRequestInterceptor.Batch | source/2.3/java/org/melior/service/mongo/MongoRequestInterceptor.java:67-74 | keeps the caller's processor and installs the wrapper in the base batch slot |
| Interceptor.MongoRequestInterceptor.Single | source/2.3/java/org/melior/service/mongo/MongoRequestInterceptor.java:81-88 | keeps the caller's processor and installs the wrapper in the base singleton slot |
| Interceptor.MongoRequestInterceptor.StartRequest | source/2.3/java/org/melior/service/mongo/MongoRequestInterceptor.java:170-195 | sets the operation, then notifies; throws iff the work manager refuses, reclassified |
| Interceptor.MongoRequestInterceptor.CompleteRequest | source/2.3/java/org/melior/service/mongo/MongoRequestInterceptor.java:201-217 | one completion call with the flag; never throws |
| Interceptor.MongoRequestInterceptor.Wrap | source/2.3/java/org/melior/service/mongo/MongoRequestInterceptor.java:97-123 | the try/catch/finally with its `isException` flag gives what `Intercept` says |
| Interceptor.MongoRequestInterceptor.ProcessBatch | source/2.3/java/org/melior/service/mongo/MongoRequestInterceptor.java:94-124 | the wrapped batch call; with no caller processor it throws UNEXPECTED "Failed to process batch of items: null" |
| Interceptor.MongoRequestInterceptor.ProcessSingle | source/2.3/java/org/melior/service/mongo/MongoRequestInterceptor.java:132-162 | the wrapped single call; with no caller processor it throws UNEXPECTED "Failed to process item: null" |

## Left out

- The MongoDB client and driver: the store is two in-memory maps. A failing claim update, confirm query or release and delete is modelled as writing nothing (a partial write there leaves the same end state or is redone by the next iteration); a failing mark may have written any part of its documents (`marked`). Which documents a multi-document update with a limit reaches is a parameter (`chosen`), since the code does not show whether the driver honours the limit; the order a query returns documents in is a parameter (`scan`). Completeness of a query (every matching document returned) is stated under the assumption that `scan` lists every document (`MongoStore.Lists`), as the driver's query does.
- Processing.ProcessedBatch: a failing batch delete (`MongoListener.java:402`, one multi-document remove by `_id in ids` at `:745`) is modelled as deleting nothing, so without a singleton processor the batch stays "B"; a delete that removed part of the batch before throwing is not modelled (those documents would be gone while the counters say nothing was processed). The same holds for `Processing.BatchEffects`.
- Processing.ProcessedSingle: a failing "E" save (`MongoListener.java:507`, the upsert at `:688`) is modelled as storing nothing, so the item stays "B"; a save that landed before the driver threw, leaving the document "E" for a later retry, is not modelled. The same holds for `Processing.SingleEffects`.
- Listener.MongoListener.Refresh: a failing session save (`MongoListener.java:540`) is modelled as storing nothing; a save that landed before the driver threw, moving the stored heartbeat forward while the session is marked inactive, is not modelled.
- Listener.MongoListener.Retry: a failing retry update (`MongoListener.java:595-600`) is modelled as changing nothing; a part of it applied before the throw is not modelled (the next retry iteration redoes the rest).
- Index creation on the first listen round (`setIndex`) is left out; it does not change the documents.
- Threads, waits and scheduling: each loop is modelled by one iteration of its body. The thread fan-out of `start`, the service's lifetime flags and the interval waits are outside the model. Suspension and the state supplier's answer are inputs.
- Blocking queues: a push onto a full queue is the listen thread waiting, modelled by the dispatching phase that remembers where it stopped; a pop from an empty queue is a worker waiting and changes nothing. Interruption of a waiting thread is not modelled.
- `registerInterceptor` is not modelled as a separate operation; the interceptor collection is built by its own constructor.
- Getters are reads of the fields they return.
- Jackson conversion of the payloads is one `Outcome` per batch or item; the converted entity is not modelled.
- The transaction context, the work manager and UUID generation are event traces and parameters.
- Interceptor.MongoRequestInterceptor.StartRequest: a `java.lang.Error` thrown by the work manager's `startRequest` escapes the `catch (Exception)` at `MongoRequestInterceptor.java:183-192` instead of being reclassified; the model treats every throwable the work manager raises there, `Exceptions.OtherThrowable` included, as caught.
- Interceptor.MongoRequestInterceptor.CompleteRequest: a `java.lang.Error` from the work manager's `completeRequest` escapes the `catch (Exception)` at `MongoRequestInterceptor.java:213`; the model's outcome there is always an exception, so it never throws.
- Interceptor.MongoRequestInterceptor.ProcessBatch: the message "null" with no caller processor assumes the NullPointerException carries no message; with the JVM's helpful NullPointerException messages (on by default since JDK 15) the text after the prefix differs.
- Interceptor.MongoRequestInterceptor.ProcessSingle: the same "null" message assumption as for the batch call.
- Items handed to the queues are values: the in-memory `MongoItem` objects are not aliased between the listen thread and the workers, which is how the code uses them.
- `ManagedItem` is not part of this model; its fields (payload, state, state message) are plain fields of `MongoItem`.
- The 64-bit arithmetic of `totalItems`, `failedItems`, the heartbeat and `eligible` is modelled with unbounded integers; only `pendingItems` is clamped, as in the code.
- Collections.MongoCollection.constructor: the queue capacity is a natural number; a negative capacity, which the listener never passes, is not modelled.
- Logging.

## Findings

| source | as written | input that shows it | evidently intended | confidence | as-written member | corrected member |
|---|---|---|---|---|---|---|
| source/2.3/java/org/melior/service/mongo/MongoListenerConfig.java:56 | `seconds * 1000` is computed in 32-bit `int` before `Clamp.clampInt(..., 0, Integer.MAX_VALUE)`, so large values wrap and the upper clamp never applies (same at lines 124, 141, 158) | `setPollInterval(2147484)` stores 0 ms; `setPollInterval(-3000000)` stores 1294967296 ms | the interval saturates at Integer.MAX_VALUE ms and is 0 for non-positive seconds | not executed | ListenerConfig.WrappedMillisOverflows | ListenerConfig.SaturatedMillis |
