/** `MongoListener`: registers collections and runs, per collection, the listen,
    process, refresh, retry and recover loops. Each loop is modelled by one iteration
    of its body, as a method of the listener over the shared store and the collection;
    the thread that repeats it, the waits between iterations and the service's
    lifetime are outside the model. */
module Listener {
  import opened Wrappers
  import opened Exceptions
  import opened ItemStates
  import opened Items
  import opened Sessions
  import opened MongoStore
  import opened StoreProperties
  import opened ListenerConfig
  import opened Collections
  import opened Batching
  import opened Processing

  /** What a collection's state supplier returns. */
  datatype ListenerState = Active | Suspended

  /** Where the listen thread is: waiting at the gate of the outer loop, about to claim,
      or blocked handing batches (or single items) of a confirmed list to the full
      queue, `start` being the index the next batch starts at. */
  datatype ListenPhase =
    | Gated
    | Claiming
    | DispatchingBatches(batch: seq<Item>, start: nat)
    | DispatchingSingles(items: seq<Item>, next: nat)

  /** A dispatching phase holds a non-empty confirmed list and a position inside it. */
  predicate PhaseValid(p: ListenPhase)
  {
    match p
    case Gated => true
    case Claiming => true
    case DispatchingBatches(batch, start) => AllFetched(batch) && start < |batch|
    case DispatchingSingles(items, next) => AllFetched(items) && next < |items|
  }

  /** What the store does in one claim round: the documents the claim update reaches,
      the order the confirm query returns documents in, the current time, the index of
      the first of the three store calls (claim 0, confirm 1, mark 2) that fails, if
      any, and, when the mark fails, the documents it still wrote (a multi-document
      update can be applied in part, or in full with its acknowledgement lost). A
      failing claim or confirm writes nothing. */
  datatype ClaimEnv = ClaimEnv(now: int, chosen: set<string>, scan: seq<string>, fault: Option<nat>, marked: set<string>)

  /** The ids of `ids` that are in `keep`, in order. */
  function Only(ids: seq<string>, keep: set<string>): (r: seq<string>)
    ensures forall k :: k in r <==> k in ids && k in keep
  {
    if ids == [] then [] else (if ids[0] in keep then [ids[0]] else []) + Only(ids[1..], keep)
  }

  /** The item collection after a claim round, the confirmed list, and whether the
      round got through without an exception. */
  datatype ClaimResult = ClaimResult(items: map<string, Item>, found: seq<Item>, ok: bool)

  /** One claim round of the listen loop: claim up to `fetchSize` unowned new documents
      for session `own`, read back this session's new documents, and mark them busy.
      The confirmed list is the documents as read, before the mark. A failed mark has
      marked the found documents among `marked`; the round then dispatches nothing. */
  function ClaimRound(items: map<string, Item>, own: string, delays: bool, fetchSize: nat, env: ClaimEnv): (r: ClaimResult)
    requires WellKeyed(items)
    ensures |r.found| <= fetchSize && r.items.Keys == items.Keys
    ensures r.found != [] ==> env.fault != Some(0) && env.fault != Some(1)
    ensures !r.ok <==> env.fault.Some? && (env.fault.value <= 1 || (env.fault.value == 2 && r.found != []))
  {
    if env.fault == Some(0) then ClaimResult(items, [], false)
    else
      var claimed := Claimed(items, own, env.now, delays, env.chosen);
      if env.fault == Some(1) then ClaimResult(claimed, [], false)
      else
        var found := FindOwnedNew(claimed, own, env.scan, fetchSize);
        if found == [] then ClaimResult(claimed, [], true)
        else if env.fault == Some(2) then ClaimResult(MarkedBusy(claimed, Only(BatchIds(found), env.marked)), found, false)
        else ClaimResult(MarkedBusy(claimed, BatchIds(found)), found, true)
  }

  /** A claim round returns at most `fetchSize` items, each a new document of this
      session carrying its id, and keeps every document under its own id; a round that
      confirms nothing writes nothing after the claim update. */
  lemma ClaimRoundShape(items: map<string, Item>, own: string, delays: bool, fetchSize: nat, env: ClaimEnv)
    requires WellKeyed(items)
    ensures var r := ClaimRound(items, own, delays, fetchSize, env);
      && WellKeyed(r.items) && r.items.Keys == items.Keys && |r.found| <= fetchSize && AllFetched(r.found)
      && (forall i :: 0 <= i < |r.found| ==> OwnedNew(r.found[i], own))
      && (r.found == [] ==> r.items == items || r.items == Claimed(items, own, env.now, delays, env.chosen))
  {
  }

  /** After a round that got through, each returned item is busy and owned by `own` in
      the store, and otherwise as it was read. */
  lemma ClaimRoundMarksFound(items: map<string, Item>, own: string, delays: bool, fetchSize: nat, env: ClaimEnv)
    requires WellKeyed(items)
    ensures var r := ClaimRound(items, own, delays, fetchSize, env);
      r.ok ==> forall i :: 0 <= i < |r.found| ==>
        var k := r.found[i].id.value;
        k in r.items && r.items[k] == r.found[i].(state := Some(Id(Busy))) && r.items[k].session == Some(own)
  {
    var r := ClaimRound(items, own, delays, fetchSize, env);
    if r.ok && r.found != [] {
      var claimed := Claimed(items, own, env.now, delays, env.chosen);
      var ids := BatchIds(r.found);
      forall i | 0 <= i < |r.found|
        ensures r.found[i].id.value in r.items && r.items[r.found[i].id.value] == r.found[i].(state := Some(Id(Busy)))
      {
        assert ids[i] == r.found[i].id.value;
      }
    }
  }

  /** A claim round leaves alone every document another session owns; a document it
      changes was unowned and claimable, or already this session's new document, and
      ends up owned by this session. */
  lemma ClaimRoundTouchesOnlyOwn(items: map<string, Item>, own: string, delays: bool, fetchSize: nat, env: ClaimEnv, k: string)
    requires WellKeyed(items) && k in items
    ensures var r := ClaimRound(items, own, delays, fetchSize, env);
      && (items[k].session.Some? && items[k].session != Some(own) ==> r.items[k] == items[k])
      && (r.items[k] != items[k] ==>
            && ((k in env.chosen && Claimable(items[k], env.now, delays)) || OwnedNew(items[k], own))
            && r.items[k].session == Some(own))
  {
    var claimed := Claimed(items, own, env.now, delays, env.chosen);
    ClaimChangesOnlyMatching(items, own, env.now, delays, env.chosen, k);
    if env.fault != Some(0) && env.fault != Some(1) {
      var found := FindOwnedNew(claimed, own, env.scan, fetchSize);
      if found != [] {
        var ids := if env.fault == Some(2) then Only(BatchIds(found), env.marked) else BatchIds(found);
        MarkChangesOnlyListed(claimed, ids, k);
        if k in ids {
          var i :| 0 <= i < |BatchIds(found)| && BatchIds(found)[i] == k;
          assert found[i].id == Some(k);
          assert OwnedNew(claimed[k], own);
        }
      }
    }
  }

  /** A mark that fails after writing strands what it wrote: a found document it marked
      is "B" and owned by this session, so the confirm query of later rounds (state "N")
      no longer returns it, the round dispatches nothing, and neither retry (state "E")
      nor recovery (stale sessions only) touches it while the session lives. */
  lemma FailedMarkStrandsMarked(items: map<string, Item>, own: string, delays: bool, fetchSize: nat, env: ClaimEnv, k: string)
    requires WellKeyed(items) && env.fault == Some(2)
    requires k in env.marked
    requires k in BatchIds(FindOwnedNew(Claimed(items, own, env.now, delays, env.chosen), own, env.scan, fetchSize))
    ensures var r := ClaimRound(items, own, delays, fetchSize, env);
      && !r.ok && k in r.items
      && InState(r.items[k], Busy) && r.items[k].session == Some(own)
      && !OwnedNew(r.items[k], own)
      && Retried(r.items, own)[k] == r.items[k]
  {
    var claimed := Claimed(items, own, env.now, delays, env.chosen);
    var found := FindOwnedNew(claimed, own, env.scan, fetchSize);
    var ids := BatchIds(found);
    var i :| 0 <= i < |ids| && ids[i] == k;
    assert found[i].id == Some(k);
    assert k in claimed && claimed[k] == found[i];
    MarkChangesOnlyListed(claimed, Only(ids, env.marked), k);
  }

  /** A claim round in which no store call fails: the claim, the confirm query and,
      when it found something, the mark. */
  lemma ClaimRoundWithoutFault(items: map<string, Item>, own: string, delays: bool, fetchSize: nat, env: ClaimEnv)
    requires WellKeyed(items) && env.fault.None?
    ensures var claimed := Claimed(items, own, env.now, delays, env.chosen);
      var found := FindOwnedNew(claimed, own, env.scan, fetchSize);
      ClaimRound(items, own, delays, fetchSize, env)
        == ClaimResult(if found == [] then claimed else MarkedBusy(claimed, BatchIds(found)), found, true)
  {
  }

  /** Every document the claim update reaches and takes, and that the store's order
      lists, is returned and ends busy and owned by `own`, as long as `fetchSize` is at
      least the number of this session's new documents after the claim and no store
      call fails. */
  lemma ClaimRoundTakesAllClaimed(items: map<string, Item>, own: string, delays: bool, fetchSize: nat, env: ClaimEnv, k: string)
    requires WellKeyed(items) && env.fault.None?
    requires CountOwnedNew(Claimed(items, own, env.now, delays, env.chosen), own, env.scan) <= fetchSize
    requires k in items && k in env.chosen && k in env.scan && Claimable(items[k], env.now, delays)
    ensures var r := ClaimRound(items, own, delays, fetchSize, env);
      && r.ok && items[k].(session := Some(own)) in r.found
      && r.items[k] == items[k].(session := Some(own), state := Some(Id(Busy)))
  {
    var claimed := Claimed(items, own, env.now, delays, env.chosen);
    ClaimChangesOnlyMatching(items, own, env.now, delays, env.chosen, k);
    assert OwnedNew(claimed[k], own);
    FindReturnsAll(claimed, own, env.scan, fetchSize, k);
    var found := FindOwnedNew(claimed, own, env.scan, fetchSize);
    IdListed(found, claimed[k], k);
    ClaimRoundWithoutFault(items, own, delays, fetchSize, env);
    MarkChangesOnlyListed(claimed, BatchIds(found), k);
  }

  lemma IdListed(found: seq<Item>, it: Item, k: string)
    requires AllFetched(found) && it in found && it.id == Some(k)
    ensures k in BatchIds(found)
  {
    var i :| 0 <= i < |found| && found[i] == it;
    assert BatchIds(found)[i] == k;
  }

  /** Which store call of a recover iteration fails first, as an index: 0 is the query
      for stale sessions, 1..m the m release updates and m+1..2m the m deletes. */
  function UpdatesDone(fault: Option<nat>, m: nat): nat
  {
    match fault
    case None => m
    case Some(f) => if f == 0 then 0 else if f - 1 < m then f - 1 else m
  }

  function DeletesDone(fault: Option<nat>, m: nat): nat
  {
    match fault
    case None => m
    case Some(f) => if f <= m then 0 else if f - 1 - m < m then f - 1 - m else m
  }

  /** The ids of the stale sessions found. */
  function SessionIds(docs: seq<SessionDoc>): (ids: seq<string>)
    requires forall i :: 0 <= i < |docs| ==> docs[i].id.Some?
    ensures |ids| == |docs|
    ensures forall i :: 0 <= i < |docs| ==> docs[i].id == Some(ids[i])
  {
    if docs == [] then [] else [docs[0].id.value] + SessionIds(docs[1..])
  }

  /** The session documents left after deleting `sids`. */
  function WithoutSessions(sessions: map<string, SessionDoc>, sids: seq<string>): (r: map<string, SessionDoc>)
    ensures forall k :: k in r <==> k in sessions && k !in sids
    ensures forall k :: k in r ==> r[k] == sessions[k]
  {
    map k | k in sessions && k !in sids :: sessions[k]
  }

  /** Recovery spares live sessions: whatever prefix of the stale sessions it releases,
      a document owned by a session whose heartbeat is after the cutoff is untouched. */
  lemma RecoverSparesLiveSessions(items: map<string, Item>, sessions: map<string, SessionDoc>, name: string,
                                   cutoff: int, scan: seq<string>, n: nat, k: string)
    requires SessionsKeyed(sessions)
    requires n <= |FindStale(sessions, name, cutoff, scan)|
    requires k in items && items[k].session.Some? && items[k].session.value in sessions
    requires !Stale(sessions[items[k].session.value], name, cutoff)
    ensures Released(items, SessionIds(FindStale(sessions, name, cutoff, scan))[..n])[k] == items[k]
  {
    var stale := FindStale(sessions, name, cutoff, scan);
    var sids := SessionIds(stale);
    var s := items[k].session.value;
    forall i | 0 <= i < n ensures sids[i] != s {
      assert stale[i].id == Some(sids[i]);
      assert sessions[sids[i]] == stale[i];
    }
    assert s !in sids[..n];
  }

  /** A document owned by a session that is stale for collection `name`. */
  predicate OwnedByStale(it: Item, sessions: map<string, SessionDoc>, name: string, cutoff: int)
  {
    it.session.Some? && it.session.value in sessions && Stale(sessions[it.session.value], name, cutoff)
  }

  /** Recovery is complete when the store's order lists every session: after all
      release updates and deletes, no stale session of `name` is left, the others are
      kept as they were, and every document a stale session owned is new and unowned. */
  lemma RecoverComplete(items: map<string, Item>, sessions: map<string, SessionDoc>, name: string,
                        cutoff: int, scan: seq<string>)
    requires SessionsKeyed(sessions) && Lists(scan, sessions)
    ensures var sids := SessionIds(FindStale(sessions, name, cutoff, scan));
      && (forall s :: s in sessions ==> (s in WithoutSessions(sessions, sids) <==> !Stale(sessions[s], name, cutoff)))
      && (forall k :: k in items && OwnedByStale(items[k], sessions, name, cutoff) ==> Released(items, sids)[k] == Reopened(items[k]))
  {
    var stale := FindStale(sessions, name, cutoff, scan);
    var sids := SessionIds(stale);
    forall s | s in sessions && Stale(sessions[s], name, cutoff) ensures s in sids {
      var i :| 0 <= i < |stale| && stale[i] == sessions[s];
      assert stale[i].id == Some(sids[i]);
    }
    forall s | s in sessions && s in sids ensures Stale(sessions[s], name, cutoff) {
      var i :| 0 <= i < |sids| && sids[i] == s;
      assert stale[i].id == Some(sids[i]);
    }
  }

  class MongoListener {
    const config: MongoListenerConfig
    const store: Store
    var collectionMap: map<string, MongoCollection>

    /** A listener over `store` with `config`, and no collection registered. */
    constructor (config: MongoListenerConfig, store: Store)
      ensures this.config == config && this.store == store && collectionMap == map[]
    {
      this.config := config;
      this.store := store;
      collectionMap := map[];
    }

    /** `register(name)`: the collection already registered under `name`, or a new one
        whose queues hold `threads` entries, registered under `name`. */
    method Register(name: string) returns (c: MongoCollection)
      requires config.Valid()
      modifies this`collectionMap
      ensures name in old(collectionMap) ==> c == old(collectionMap)[name] && collectionMap == old(collectionMap)
      ensures name !in old(collectionMap) ==>
        && fresh(c) && collectionMap == old(collectionMap)[name := c]
        && c.Valid() && c.name == name && c.capacity == config.threads
        && c.batchProcessor.None? && c.singletonProcessor.None?
        && c.batchQueue == [] && c.singletonQueue == [] && c.Counts() == Counters(0, 0, 0)
    {
      if name in collectionMap {
        c := collectionMap[name];
      } else {
        c := new MongoCollection(name, config.threads);
        collectionMap := collectionMap[name := c];
      }
    }

    /** The ids of a confirmed list, in order, as the mark and delete calls collect them. */
    method IdsOf(items: seq<Item>) returns (ids: seq<string>)
      requires AllFetched(items)
      ensures |ids| == |items|
      ensures forall i :: 0 <= i < |items| ==> items[i].id == Some(ids[i])
    {
      ids := [];
      for i := 0 to |items|
        invariant |ids| == i
        invariant forall j :: 0 <= j < i ==> items[j].id == Some(ids[j])
      {
        ids := ids + [items[i].id.value];
      }
    }

    /** `processBatches(collection, list)`: queue the list from `start` on in batches of
        `batchSize`, stopping at a full queue; returns where it stopped (`|items|` when
        everything is queued). What is queued plus what is left is what there was to
        queue, in order. */
    method QueueBatches(c: MongoCollection, items: seq<Item>, start: nat) returns (next: nat)
      requires config.Valid() && c.Valid() && AllFetched(items) && start < |items|
      modifies c`batchQueue
      ensures c.Valid() && start <= next <= |items|
      ensures c.batchQueue + ChunksFrom(items, next, config.batchSize) == old(c.batchQueue) + ChunksFrom(items, start, config.batchSize)
      ensures next < |items| ==> |c.batchQueue| == c.capacity
    {
      var size := config.batchSize;
      next := start;
      while next < |items| && |c.batchQueue| < c.capacity
        invariant start <= next <= |items|
        invariant c.Valid()
        invariant c.batchQueue + ChunksFrom(items, next, size) == old(c.batchQueue) + ChunksFrom(items, start, size)
        decreases |items| - next
      {
        var end := if next + size < |items| then next + size else |items|;
        ChunksFromStep(items, next, size);
        var chunk := items[next..end];
        assert AllFetched(chunk) by {
          forall i | 0 <= i < |chunk| ensures Fetched(chunk[i]) {
            assert chunk[i] == items[next + i];
          }
        }
        c.batchQueue := c.batchQueue + [chunk];
        if next + size < |items| {
          next := next + size;
        } else {
          assert ChunksFrom(items, next + size, size) == [] == ChunksFrom(items, |items|, size);
          next := |items|;
        }
      }
    }

    /** `processSingles(collection, list)`: queue the items from `next` on one by one,
        stopping at a full queue; returns where it stopped. */
    method QueueSingles(c: MongoCollection, items: seq<Item>, next: nat) returns (stop: nat)
      requires c.Valid() && AllFetched(items) && next < |items|
      modifies c`singletonQueue
      ensures c.Valid() && next <= stop <= |items|
      ensures c.singletonQueue + items[stop..] == old(c.singletonQueue) + items[next..]
      ensures stop < |items| ==> |c.singletonQueue| == c.capacity
    {
      stop := next;
      while stop < |items| && |c.singletonQueue| < c.capacity
        invariant next <= stop <= |items|
        invariant c.Valid()
        invariant c.singletonQueue + items[stop..] == old(c.singletonQueue) + items[next..]
        decreases |items| - stop
      {
        assert items[stop..] == [items[stop]] + items[stop + 1..];
        c.singletonQueue := c.singletonQueue + [items[stop]];
        stop := stop + 1;
      }
    }

    /** The claiming step of the listen thread: a claim round on this collection's
        documents while the state supplier says active, and where the confirmed list
        goes next. */
    method ClaimStep(c: MongoCollection, session: MongoSession, state: ListenerState, delays: bool, env: ClaimEnv)
      returns (next: ListenPhase)
      requires store.Valid() && config.Valid() && session.id.Some?
      modifies store`collections
      ensures store.Valid() && PhaseValid(next)
      ensures state == Suspended ==> store.collections == old(store.collections) && next == Gated
      ensures state == Active ==>
        var r := ClaimRound(old(store.Items(c.name)), session.id.value, delays, config.fetchSize, env);
        && store.Items(c.name) == r.items && SameElsewhere(old(store.collections), store.collections, c.name)
        && next == (if !r.ok || r.found == [] then Gated
                    else if c.batchProcessor.Some? then DispatchingBatches(r.found, 0)
                    else if c.singletonProcessor.Some? then DispatchingSingles(r.found, 0)
                    else Claiming)
    {
      if state == Suspended {
        next := Gated;
        return;
      }
      var own := session.id.value;
      var docs := store.Items(c.name);
      ClaimRoundShape(docs, own, delays, config.fetchSize, env);
      if env.fault == Some(0) {
        next := Gated;
        return;
      }
      docs := Claimed(docs, own, env.now, delays, env.chosen);
      store.Put(c.name, docs);
      if env.fault == Some(1) {
        next := Gated;
        return;
      }
      var found := FindOwnedNew(docs, own, env.scan, config.fetchSize);
      if found == [] {
        next := Gated;
        return;
      }
      var ids := IdsOf(found);
      assert ids == BatchIds(found);
      if env.fault == Some(2) {
        store.Put(c.name, MarkedBusy(docs, Only(ids, env.marked)));
        next := Gated;
        return;
      }
      store.Put(c.name, MarkedBusy(docs, ids));
      if c.batchProcessor.Some? {
        next := DispatchingBatches(found, 0);
      } else if c.singletonProcessor.Some? {
        next := DispatchingSingles(found, 0);
      } else {
        next := Claiming;
      }
    }

    /** One step of the listen thread. At the gate it waits while the service is
        suspended or the session is inactive. A claim round runs on this collection's
        documents while the state supplier says active; the confirmed list goes to the
        batch queue when a batch processor is set, else to the single queue when a
        singleton processor is set, else nowhere. An empty list, a failed store call or
        a suspended state ends the inner loop (back to the gate after the poll wait).
        The inner loop does not look at the session's flag again. */
    method ListenStep(c: MongoCollection, session: MongoSession, phase: ListenPhase,
                      suspended: bool, state: ListenerState, delays: bool, env: ClaimEnv)
      returns (next: ListenPhase)
      requires store.Valid() && c.Valid() && config.Valid() && session.id.Some? && PhaseValid(phase)
      modifies store`collections, c`batchQueue, c`singletonQueue
      ensures store.Valid() && c.Valid() && PhaseValid(next)
      ensures phase.Gated? ==>
        && store.collections == old(store.collections) && c.batchQueue == old(c.batchQueue) && c.singletonQueue == old(c.singletonQueue)
        && next == (if !suspended && session.active then Claiming else Gated)
      ensures phase.Claiming? && state == Suspended ==>
        && store.collections == old(store.collections) && c.batchQueue == old(c.batchQueue) && c.singletonQueue == old(c.singletonQueue)
        && next == Gated
      ensures phase.Claiming? && state == Active ==>
        var r := ClaimRound(old(store.Items(c.name)), session.id.value, delays, config.fetchSize, env);
        && store.Items(c.name) == r.items && SameElsewhere(old(store.collections), store.collections, c.name)
        && c.batchQueue == old(c.batchQueue) && c.singletonQueue == old(c.singletonQueue)
        && next == (if !r.ok || r.found == [] then Gated
                    else if c.batchProcessor.Some? then DispatchingBatches(r.found, 0)
                    else if c.singletonProcessor.Some? then DispatchingSingles(r.found, 0)
                    else Claiming)
      ensures phase.DispatchingBatches? ==>
        && store.collections == old(store.collections) && c.singletonQueue == old(c.singletonQueue)
        && exists stop: nat ::
             && phase.start <= stop <= |phase.batch|
             && c.batchQueue + ChunksFrom(phase.batch, stop, config.batchSize)
                == old(c.batchQueue) + ChunksFrom(phase.batch, phase.start, config.batchSize)
             && next == (if stop == |phase.batch| then Claiming else DispatchingBatches(phase.batch, stop))
      ensures phase.DispatchingSingles? ==>
        && store.collections == old(store.collections) && c.batchQueue == old(c.batchQueue)
        && exists stop: nat ::
             && phase.next <= stop <= |phase.items|
             && c.singletonQueue + phase.items[stop..] == old(c.singletonQueue) + phase.items[phase.next..]
             && next == (if stop == |phase.items| then Claiming else DispatchingSingles(phase.items, stop))
    {
      match phase {
        case Gated =>
          next := if !suspended && session.active then Claiming else Gated;
        case Claiming =>
          next := ClaimStep(c, session, state, delays, env);
        case DispatchingBatches(batch, start) =>
          var stop := QueueBatches(c, batch, start);
          next := if stop == |batch| then Claiming else DispatchingBatches(batch, stop);
        case DispatchingSingles(items, from) =>
          var stop := QueueSingles(c, items, from);
          next := if stop == |items| then Claiming else DispatchingSingles(items, stop);
      }
    }

    /** `processSingle(collection, item)`: one item through the singleton processor
        under the item's own transaction and correlation ids; the collection's documents
        and the counters end as `ProcessedSingle` says, and the transaction context is
        reset whether or not the processor throws. */
    method ProcessSingle(c: MongoCollection, it: Item, env: SingleEnv) returns (thrown: Option<Throwable>, trace: seq<ContextEvent>)
      requires store.Valid() && c.Valid() && Fetched(it)
      modifies store`collections, c`totalItems, c`failedItems, c`pendingItems
      ensures store.Valid() && c.Valid()
      ensures var r := ProcessedSingle(Work(old(store.Items(c.name)), old(c.Counts())), it, env);
        && store.Items(c.name) == r.work.items && SameElsewhere(old(store.collections), store.collections, c.name)
        && c.Counts() == r.work.counters && thrown == r.thrown
      ensures var (tx, corr) := SingleContextIds(it, env.freshId);
        trace == ContextTrace(env.convert.Pass?, tx, corr)
      ensures Invoked in trace <==> env.convert.Pass?
      ensures trace != [] ==> trace[|trace| - 1] == Reset
    {
      var id := it.id.value;
      var docs := store.Items(c.name);
      c.totalItems := c.totalItems + 1;
      var failure: Option<Throwable> := None;
      trace := [];
      if env.convert.Fail? {
        failure := Some(env.convert.thrown);
      } else {
        var tx := TransactionId(Coalesce(it.transaction, it.correlation), env.freshId);
        var corr := OrElse(it.correlation, tx);
        trace := [Started, TransactionIdSet(tx), CorrelationIdSet(corr)];
        trace := trace + [Invoked];
        if env.process.Fail? {
          trace := trace + [Reset];
          failure := Some(env.process.thrown);
        } else {
          trace := trace + [Reset];
          if env.delete.Fail? {
            failure := Some(env.delete.thrown);
          } else {
            docs := docs - {id};
            c.pendingItems := Decremented(c.pendingItems, 1);
          }
        }
      }
      thrown := None;
      if failure.Some? {
        c.failedItems := c.failedItems + 1;
        if env.save.Fail? {
          thrown := Some(env.save.thrown);
        } else {
          docs := docs[id := Errored(it, failure.value.message)];
          c.pendingItems := Decremented(c.pendingItems, 1);
        }
      }
      store.Put(c.name, docs);
    }

    /** `processBatch(collection, list)`: the batch through the batch processor under
        one fresh id used as both transaction and correlation id, then the per-item
        fallback when that fails; the collection's documents and the counters end as
        `ProcessedBatch` says. The trace is the batch's own context. */
    method ProcessBatch(c: MongoCollection, batch: seq<Item>, env: BatchEnv) returns (thrown: Option<Throwable>, trace: seq<ContextEvent>)
      requires store.Valid() && c.Valid() && AllFetched(batch) && |env.singles| == |batch|
      modifies store`collections, c`totalItems, c`failedItems, c`pendingItems
      ensures store.Valid() && c.Valid()
      ensures var r := ProcessedBatch(Work(old(store.Items(c.name)), old(c.Counts())), batch, c.singletonProcessor.Some?, env);
        && store.Items(c.name) == r.work.items && SameElsewhere(old(store.collections), store.collections, c.name)
        && c.Counts() == r.work.counters && thrown == r.thrown
      ensures trace == ContextTrace(env.convert.Pass?, env.freshId, env.freshId)
      ensures Invoked in trace <==> env.convert.Pass?
      ensures trace != [] ==> trace[|trace| - 1] == Reset
    {
      trace := [];
      thrown := None;
      if env.convert.Pass? {
        var tx := TransactionId(None, env.freshId);
        trace := [Started, TransactionIdSet(tx), CorrelationIdSet(tx)];
        trace := trace + [Invoked];
        trace := trace + [Reset];
        if env.process.Pass? && env.delete.Pass? {
          var ids := IdsOf(batch);
          assert ids == BatchIds(batch);
          store.Put(c.name, store.Items(c.name) - (set k | k in ids));
          c.totalItems := c.totalItems + |batch|;
          c.pendingItems := Decremented(c.pendingItems, |batch|);
          return;
        }
      }
      if c.singletonProcessor.Some? {
        thrown := ProcessFallback(c, batch, env.singles);
      }
    }

    /** The per-item fallback of `processBatch`: `processSingle` on each item in order,
        the first one that throws ending it; the collection's documents and the counters
        end as `RunSingles` says. Only the batch's own context is reported by
        `ProcessBatch`; each item's context is that of `ProcessSingle`. */
    method ProcessFallback(c: MongoCollection, batch: seq<Item>, envs: seq<SingleEnv>) returns (thrown: Option<Throwable>)
      requires store.Valid() && c.Valid() && AllFetched(batch) && |envs| == |batch|
      modifies store`collections, c`totalItems, c`failedItems, c`pendingItems
      ensures store.Valid() && c.Valid()
      ensures var r := RunSingles(Work(old(store.Items(c.name)), old(c.Counts())), batch, envs);
        && store.Items(c.name) == r.work.items && SameElsewhere(old(store.collections), store.collections, c.name)
        && c.Counts() == r.work.counters && thrown == r.thrown
    {
      thrown := None;
      ghost var w0 := Work(store.Items(c.name), c.Counts());
      ghost var collections0 := store.collections;
      var i := 0;
      while i < |batch|
        invariant 0 <= i <= |batch|
        invariant store.Valid() && c.Valid() && AllFetched(batch[i..])
        invariant SameElsewhere(collections0, store.collections, c.name)
        invariant RunSingles(w0, batch, envs) == RunSingles(Work(store.Items(c.name), c.Counts()), batch[i..], envs[i..])
        decreases |batch| - i
      {
        assert batch[i..][0] == batch[i] && batch[i..][1..] == batch[i + 1..];
        assert envs[i..][0] == envs[i] && envs[i..][1..] == envs[i + 1..];
        var t, singleTrace := ProcessSingle(c, batch[i], envs[i]);
        if t.Some? {
          thrown := t;
          return;
        }
        i := i + 1;
      }
    }

    /** One iteration of a worker thread: with a batch processor set, take the next
        batch and process it; else, with a singleton processor set, take the next item
        and process it; with neither, or with an empty queue, wait (nothing changes).
        What the processing throws is only logged. */
    method ProcessStep(c: MongoCollection, env: BatchEnv, single: SingleEnv) returns (thrown: Option<Throwable>)
      requires store.Valid() && c.Valid()
      requires c.batchProcessor.Some? && c.batchQueue != [] ==> |env.singles| == |c.batchQueue[0]|
      modifies store`collections, c`totalItems, c`failedItems, c`pendingItems, c`batchQueue, c`singletonQueue
      ensures store.Valid() && c.Valid()
      ensures c.batchProcessor.Some? && old(c.batchQueue) != [] ==>
        var r := ProcessedBatch(Work(old(store.Items(c.name)), old(c.Counts())), old(c.batchQueue)[0], c.singletonProcessor.Some?, env);
        && c.batchQueue == old(c.batchQueue)[1..] && c.singletonQueue == old(c.singletonQueue)
        && store.Items(c.name) == r.work.items && SameElsewhere(old(store.collections), store.collections, c.name)
        && c.Counts() == r.work.counters && thrown == r.thrown
      ensures c.batchProcessor.None? && c.singletonProcessor.Some? && old(c.singletonQueue) != [] ==>
        var r := ProcessedSingle(Work(old(store.Items(c.name)), old(c.Counts())), old(c.singletonQueue)[0], single);
        && c.singletonQueue == old(c.singletonQueue)[1..] && c.batchQueue == old(c.batchQueue)
        && store.Items(c.name) == r.work.items && SameElsewhere(old(store.collections), store.collections, c.name)
        && c.Counts() == r.work.counters && thrown == r.thrown
      ensures || (c.batchProcessor.Some? && old(c.batchQueue) == [])
              || (c.batchProcessor.None? && (c.singletonProcessor.None? || old(c.singletonQueue) == [])) ==>
        && store.collections == old(store.collections) && c.Counts() == old(c.Counts())
        && c.batchQueue == old(c.batchQueue) && c.singletonQueue == old(c.singletonQueue) && thrown.None?
    {
      thrown := None;
      if c.batchProcessor.Some? {
        if c.batchQueue != [] {
          var batch := c.batchQueue[0];
          c.batchQueue := c.batchQueue[1..];
          var trace;
          thrown, trace := ProcessBatch(c, batch, env);
        }
      } else if c.singletonProcessor.Some? {
        if c.singletonQueue != [] {
          var it := c.singletonQueue[0];
          c.singletonQueue := c.singletonQueue[1..];
          var trace;
          thrown, trace := ProcessSingle(c, it, single);
        }
      }
    }

    /** One iteration of the refresh thread: stamp the heartbeat and save the session
        (a failed save makes the session inactive, which stops the claiming at the
        listen thread's gate, and ends the iteration); a saved session is active, and
        while the state supplier says active the pending gauge is reset to the number
        of new or busy documents of the collection (store call 0 is the save, 1 the
        count). */
    method Refresh(c: MongoCollection, session: MongoSession, state: ListenerState, now: int, fault: Option<nat>)
      requires store.Valid() && c.Valid() && session.id.Some?
      modifies session`heartbeat, session`active, store`sessions, c`pendingItems
      ensures store.Valid() && c.Valid() && session.heartbeat == now
      ensures fault == Some(0) ==>
        !session.active && store.sessions == old(store.sessions) && c.pendingItems == old(c.pendingItems)
      ensures fault != Some(0) ==>
        session.active && store.sessions == old(store.sessions)[session.id.value := SessionDoc(session.id, session.collection, now)]
      ensures c.pendingItems == (if fault != Some(0) && state == Active && fault != Some(1)
                                 then ResetTo(PendingCount(store.Items(c.name))) else old(c.pendingItems))
    {
      session.SetHeartbeat(now);
      if fault == Some(0) {
        session.SetActive(false);
        return;
      }
      store.sessions := store.sessions[session.id.value := session.Document()];
      session.SetActive(true);
      if state == Active && fault != Some(1) {
        c.pendingItems := ResetTo(PendingCount(store.Items(c.name)));
      }
    }

    /** One iteration of the retry thread: while the state supplier says active, put
        this session's failed documents of the collection back as new and unowned
        (`failed` says the update threw). */
    method Retry(c: MongoCollection, session: MongoSession, state: ListenerState, failed: bool)
      requires store.Valid() && session.id.Some?
      modifies store`collections
      ensures store.Valid()
      ensures state == Active && !failed ==>
        && store.Items(c.name) == Retried(old(store.Items(c.name)), session.id.value)
        && SameElsewhere(old(store.collections), store.collections, c.name)
      ensures state == Suspended || failed ==> store.collections == old(store.collections)
    {
      if state == Active && !failed {
        store.Put(c.name, Retried(store.Items(c.name), session.id.value));
      }
    }

    /** One iteration of the recover thread: while the state supplier says active, find
        this collection's sessions whose heartbeat is at least `inactivityTimeout` old,
        put every document of the collection they own back as new and unowned, then
        delete them; the first store call that throws ends the iteration. When no call
        throws and the store's order lists every session, no stale session is left and
        every document a stale session owned is back in the pool. */
    method Recover(c: MongoCollection, state: ListenerState, now: int, inactivityTimeout: int,
                   scan: seq<string>, fault: Option<nat>)
      requires store.Valid()
      modifies store`collections, store`sessions
      ensures store.Valid()
      ensures state == Suspended || fault == Some(0) ==>
        store.collections == old(store.collections) && store.sessions == old(store.sessions)
      ensures state == Active && fault != Some(0) ==>
        var sids := SessionIds(FindStale(old(store.sessions), c.name, now - inactivityTimeout, scan));
        && store.Items(c.name) == Released(old(store.Items(c.name)), sids[..UpdatesDone(fault, |sids|)])
        && SameElsewhere(old(store.collections), store.collections, c.name)
        && store.sessions == WithoutSessions(old(store.sessions), sids[..DeletesDone(fault, |sids|)])
      ensures state == Active && fault.None? && Lists(scan, old(store.sessions)) ==>
        && (forall s :: s in store.sessions ==> !Stale(store.sessions[s], c.name, now - inactivityTimeout))
        && (forall s :: s in old(store.sessions) && !Stale(old(store.sessions)[s], c.name, now - inactivityTimeout) ==>
              s in store.sessions && store.sessions[s] == old(store.sessions)[s])
        && (forall k :: k in old(store.Items(c.name)) && OwnedByStale(old(store.Items(c.name))[k], old(store.sessions), c.name, now - inactivityTimeout) ==>
              store.Items(c.name)[k] == Reopened(old(store.Items(c.name))[k]))
    {
      if state == Suspended || fault == Some(0) {
        return;
      }
      var stale := FindStale(store.sessions, c.name, now - inactivityTimeout, scan);
      var sids := SessionIds(stale);
      ghost var items0, sessions0 := store.Items(c.name), store.sessions;
      if fault.None? && Lists(scan, sessions0) {
        RecoverComplete(items0, sessions0, c.name, now - inactivityTimeout, scan);
        assert sids[..|sids|] == sids;
      }
      var released := ReleaseSessions(c.name, sids, fault);
      if released {
        DeleteSessions(sids, fault);
      }
    }

    /** The release updates of a recover iteration on collection `name`, one per stale
        session in order; the first one that throws (store call `1 + i` for the `i`-th)
        stops the rest. Returns whether all of them went through. */
    method ReleaseSessions(name: string, sids: seq<string>, fault: Option<nat>) returns (released: bool)
      requires store.Valid() && fault != Some(0)
      modifies store`collections
      ensures store.Valid()
      ensures store.Items(name) == Released(old(store.Items(name)), sids[..UpdatesDone(fault, |sids|)])
      ensures SameElsewhere(old(store.collections), store.collections, name)
      ensures released <==> !(fault.Some? && fault.value <= |sids|)
    {
      var docs := store.Items(name);
      ghost var items0 := docs;
      for i := 0 to |sids|
        invariant store.Valid() && store.collections == old(store.collections)
        invariant WellKeyed(items0) && docs == Released(items0, sids[..i])
        invariant !(fault.Some? && 1 <= fault.value <= i)
      {
        if fault == Some(1 + i) {
          store.Put(name, docs);
          return false;
        }
        ReleasedStep(items0, sids, i);
        docs := Released(docs, [sids[i]]);
      }
      assert sids[..|sids|] == sids;
      store.Put(name, docs);
      released := true;
    }

    /** The deletes of a recover iteration, one per stale session in order, after all
        release updates went through; the first one that throws (store call
        `1 + |sids| + i` for the `i`-th) stops the rest. */
    method DeleteSessions(sids: seq<string>, fault: Option<nat>)
      requires store.Valid() && !(fault.Some? && fault.value <= |sids|)
      modifies store`sessions
      ensures store.Valid()
      ensures store.sessions == WithoutSessions(old(store.sessions), sids[..DeletesDone(fault, |sids|)])
    {
      var m := |sids|;
      ghost var sessions0 := store.sessions;
      assert sessions0 == WithoutSessions(sessions0, sids[..0]);
      for i := 0 to m
        invariant store.Valid()
        invariant store.sessions == WithoutSessions(sessions0, sids[..i])
        invariant !(fault.Some? && 1 + m <= fault.value < 1 + m + i)
      {
        if fault == Some(1 + m + i) {
          return;
        }
        assert sids[..i + 1] == sids[..i] + [sids[i]];
        store.sessions := store.sessions - {sids[i]};
      }
      assert sids[..m] == sids;
    }
  }
}
