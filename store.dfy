/** The document store the listener works against, reduced to what the listener uses:
    the item collections (collection name -> id -> item document) and the "session"
    collection (id -> session document). Each query and update of the listener is a function
    over these maps, written from its filter and its update. */
module MongoStore {
  import opened Wrappers
  import opened ItemStates
  import opened Items
  import opened Sessions

  /** Every document is stored under its own id. */
  predicate WellKeyed(items: map<string, Item>)
  {
    forall k :: k in items ==> items[k].id == Some(k)
  }

  predicate SessionsKeyed(sessions: map<string, SessionDoc>)
  {
    forall k :: k in sessions ==> sessions[k].id == Some(k)
  }

  /** The claim filter: state "N", no session, and, when the collection supports delays,
      an eligibility time at or before `now` (a `$lte` filter does not match a missing field). */
  predicate Claimable(it: Item, now: int, delays: bool)
  {
    && InState(it, New)
    && it.session.None?
    && (delays ==> it.eligible.Some? && it.eligible.value <= now)
  }

  /** The confirm filter: state "N" and owned by `own`. */
  predicate OwnedNew(it: Item, own: string)
  {
    InState(it, New) && it.session == Some(own)
  }

  /** An item put back into the pool: state "N", no session. */
  function Reopened(it: Item): Item
  {
    it.(state := Some(Id(New)), session := None)
  }

  /** The claim update: of the claimable documents the store's update reaches (`chosen`),
      each gets `session := own`. Which matching documents a bulk update with a limit
      reaches is up to the store, hence `chosen`. */
  function Claimed(items: map<string, Item>, own: string, now: int, delays: bool, chosen: set<string>): (r: map<string, Item>)
    ensures r.Keys == items.Keys
    ensures WellKeyed(items) ==> WellKeyed(r)
  {
    map k | k in items :: if k in chosen && Claimable(items[k], now, delays) then items[k].(session := Some(own)) else items[k]
  }

  /** The confirm query: the documents matching `OwnedNew`, in the store's order `scan`,
      at most `limit` of them. */
  function FindOwnedNew(items: map<string, Item>, own: string, scan: seq<string>, limit: nat): (r: seq<Item>)
    requires WellKeyed(items)
    ensures |r| <= limit
    ensures forall i :: 0 <= i < |r| ==> Fetched(r[i]) && r[i].id.value in items && items[r[i].id.value] == r[i]
    ensures forall i :: 0 <= i < |r| ==> OwnedNew(r[i], own) && r[i].id.value in scan
    decreases scan
  {
    if scan == [] || limit == 0 then []
    else if scan[0] in items && OwnedNew(items[scan[0]], own) then
      [items[scan[0]]] + FindOwnedNew(items, own, scan[1..], limit - 1)
    else
      FindOwnedNew(items, own, scan[1..], limit)
  }

  /** How many entries of `scan` name a document matching the confirm filter. */
  function CountOwnedNew(items: map<string, Item>, own: string, scan: seq<string>): nat
    decreases scan
  {
    if scan == [] then 0
    else (if scan[0] in items && OwnedNew(items[scan[0]], own) then 1 else 0) + CountOwnedNew(items, own, scan[1..])
  }

  /** The mark update `_id in ids` with `state := "B"`; nothing else of a document changes. */
  function MarkedBusy(items: map<string, Item>, ids: seq<string>): (r: map<string, Item>)
    ensures r.Keys == items.Keys
    ensures WellKeyed(items) ==> WellKeyed(r)
  {
    map k | k in items :: if k in ids then items[k].(state := Some(Id(Busy))) else items[k]
  }

  /** The retry update: state "E" and session `own` become state "N" with no session. */
  function Retried(items: map<string, Item>, own: string): (r: map<string, Item>)
    ensures r.Keys == items.Keys
    ensures WellKeyed(items) ==> WellKeyed(r)
  {
    map k | k in items :: if InState(items[k], Error) && items[k].session == Some(own) then Reopened(items[k]) else items[k]
  }

  /** The recovery updates for the sessions `sids`: every document owned by one of them,
      whatever its state, becomes state "N" with no session. */
  function Released(items: map<string, Item>, sids: seq<string>): (r: map<string, Item>)
    ensures r.Keys == items.Keys
    ensures WellKeyed(items) ==> WellKeyed(r)
  {
    map k | k in items :: if items[k].session.Some? && items[k].session.value in sids then Reopened(items[k]) else items[k]
  }

  /** The pending count: documents in state "N" or "B", whoever owns them. */
  function PendingCount(items: map<string, Item>): (r: nat)
    ensures r <= |items|
  {
    var pending := set k | k in items && (InState(items[k], New) || InState(items[k], Busy));
    assert pending <= items.Keys;
    SubsetCardinality(pending, items.Keys);
    |pending|
  }

  lemma SubsetCardinality<K>(a: set<K>, b: set<K>)
    requires a <= b
    ensures |a| <= |b|
  {
    assert b == a + (b - a);
  }

  /** The recovery query's filter: a session of collection `name` whose heartbeat is at
      or before `cutoff`. */
  predicate Stale(doc: SessionDoc, name: string, cutoff: int)
  {
    doc.collection == Some(name) && doc.heartbeat <= cutoff
  }

  /** The recovery query: the stale sessions of `name`, in the store's order `scan`.
      Every stale session the order lists is returned. */
  function FindStale(sessions: map<string, SessionDoc>, name: string, cutoff: int, scan: seq<string>): (r: seq<SessionDoc>)
    requires SessionsKeyed(sessions)
    ensures forall i :: 0 <= i < |r| ==> r[i].id.Some? && r[i].id.value in sessions && sessions[r[i].id.value] == r[i]
    ensures forall i :: 0 <= i < |r| ==> Stale(r[i], name, cutoff)
    ensures forall k :: k in scan && k in sessions && Stale(sessions[k], name, cutoff) ==> sessions[k] in r
    decreases scan
  {
    if scan == [] then []
    else
      var rest := FindStale(sessions, name, cutoff, scan[1..]);
      assert forall k :: k in scan && k != scan[0] ==> k in scan[1..];
      if scan[0] in sessions && Stale(sessions[scan[0]], name, cutoff) then [sessions[scan[0]]] + rest
      else rest
  }

  /** The store's order `scan` lists every document of `docs`, as a query that returns
      all the documents matching its filter does. */
  predicate Lists<V>(scan: seq<string>, docs: map<string, V>)
  {
    forall k :: k in docs ==> k in scan
  }

  /** Every collection's documents are stored under their own ids. */
  predicate AllKeyed(collections: map<string, map<string, Item>>)
  {
    forall n :: n in collections ==> WellKeyed(collections[n])
  }

  /** The documents of the collection called `name`; a collection the store has not
      seen yet holds no documents. */
  function Lookup(collections: map<string, map<string, Item>>, name: string): (r: map<string, Item>)
    ensures AllKeyed(collections) ==> WellKeyed(r)
    ensures name in collections ==> r == collections[name]
    ensures name !in collections ==> r == map[]
  {
    if name in collections then collections[name] else map[]
  }

  /** Every collection other than `name` holds the same documents in `a` and in `b`. */
  ghost predicate SameElsewhere(a: map<string, map<string, Item>>, b: map<string, map<string, Item>>, name: string)
  {
    forall n :: n != name ==> Lookup(a, n) == Lookup(b, n)
  }

  /** The item collections and the session collection, shared by every listener
      instance. */
  class Store {
    var collections: map<string, map<string, Item>>
    var sessions: map<string, SessionDoc>

    ghost predicate Valid()
      reads this
    {
      AllKeyed(collections) && SessionsKeyed(sessions)
    }

    /** The documents of the item collection `name`. */
    function Items(name: string): (r: map<string, Item>)
      reads this
      ensures Valid() ==> WellKeyed(r)
    {
      Lookup(collections, name)
    }

    constructor ()
      ensures Valid() && collections == map[] && sessions == map[]
    {
      collections, sessions := map[], map[];
    }

    /** The documents of collection `name` become `docs`; the other collections and the
        sessions are untouched. */
    method Put(name: string, docs: map<string, Item>)
      requires Valid() && WellKeyed(docs)
      modifies this`collections
      ensures Valid() && Items(name) == docs
      ensures SameElsewhere(old(collections), collections, name)
    {
      collections := collections[name := docs];
    }

    /** `insertManaged(collection, item)`: the item is wrapped as a new managed item in the
        caller's context and inserted into collection `name` under the id the store
        assigns. */
    method InsertManaged(name: string, payload: Option<Payload>, ctx: TransactionContext, newId: string) returns (m: MongoItem)
      requires Valid() && newId !in Items(name)
      modifies this`collections
      ensures Valid() && fresh(m)
      ensures collections == old(collections)[name := old(Items(name))[newId := m.Document()]]
      ensures m.Document() == Item(Some(newId), payload, Some(Id(New)), None, None, ctx.transactionId, ctx.correlationId, None)
    {
      m := new MongoItem.InContext(ctx, payload, Some(Id(New)));
      m.SetId(Some(newId));
      collections := collections[name := Items(name)[newId := m.Document()]];
    }

    /** `insertManaged(collection, item, delay)`: as `InsertManaged`, eligible `delayMillis`
        after `now`. */
    method InsertManagedDelayed(name: string, payload: Option<Payload>, ctx: TransactionContext, now: int, delayMillis: int, newId: string)
      returns (m: MongoItem)
      requires Valid() && newId !in Items(name)
      modifies this`collections
      ensures Valid() && fresh(m)
      ensures collections == old(collections)[name := old(Items(name))[newId := m.Document()]]
      ensures m.Document() == Item(Some(newId), payload, Some(Id(New)), None, None, ctx.transactionId, ctx.correlationId, Some(now + delayMillis))
    {
      m := new MongoItem.Delayed(ctx, payload, Some(Id(New)), now, delayMillis);
      m.SetId(Some(newId));
      collections := collections[name := Items(name)[newId := m.Document()]];
    }
  }
}
