/** `MongoItem`: a managed item as it is held in memory and as it is stored. */
module Items {
  import opened Wrappers
  import ItemStates

  /** The caller's entity in its stored (serialized) form. */
  type Payload = string

  /** An item document as the store holds it. `id` is assigned by the store on insert;
      `state` holds an `ItemState` id; `eligible` is in epoch milliseconds. */
  datatype Item = Item(
    id: Option<string>,
    payload: Option<Payload>,
    state: Option<string>,
    stateMessage: Option<string>,
    session: Option<string>,
    transaction: Option<string>,
    correlation: Option<string>,
    eligible: Option<int>)

  /** The caller's ambient transaction context at the time an item is created. */
  datatype TransactionContext = TransactionContext(transactionId: Option<string>, correlationId: Option<string>)

  /** True of an item that came back from the store, so that it carries its id. */
  predicate Fetched(it: Item)
  {
    it.id.Some?
  }

  /** True of an item in the given state. */
  predicate InState(it: Item, s: ItemStates.ItemState)
  {
    it.state == Some(ItemStates.Id(s))
  }

  /** A mutable managed item. `payload`, `state` and `stateMessage` belong to the base
      class `ManagedItem`, whose source is not part of this model; they are plain fields here. */
  class MongoItem {
    var id: Option<string>
    var payload: Option<Payload>
    var state: Option<string>
    var stateMessage: Option<string>
    var session: Option<string>
    var transaction: Option<string>
    var correlation: Option<string>
    var eligible: Option<int>

    /** The document that saving or inserting this object writes. */
    function Document(): Item
      reads this
    {
      Item(id, payload, state, stateMessage, session, transaction, correlation, eligible)
    }

    /** `MongoItem()`: an item with no payload and every field null. */
    constructor ()
      ensures Document() == Item(None, None, None, None, None, None, None, None)
    {
      id, payload, state, stateMessage := None, None, None, None;
      session, transaction, correlation, eligible := None, None, None, None;
    }

    /** `MongoItem(item, state)`: no causal ids, no eligibility time. */
    constructor OfState(item: Option<Payload>, state: Option<string>)
      ensures Document() == Item(None, item, state, None, None, None, None, None)
    {
      id, payload, this.state, stateMessage := None, item, state, None;
      session, transaction, correlation, eligible := None, None, None, None;
    }

    /** `MongoItem(transactionContext, item, state)`: the causal ids are copied from the context. */
    constructor InContext(ctx: TransactionContext, item: Option<Payload>, state: Option<string>)
      ensures Document() == Item(None, item, state, None, None, ctx.transactionId, ctx.correlationId, None)
    {
      id, payload, this.state, stateMessage := None, item, state, None;
      session, transaction, correlation, eligible := None, ctx.transactionId, ctx.correlationId, None;
    }

    /** `MongoItem(transactionContext, item, state, delay)`: as `InContext`, and the item
        becomes eligible `delayMillis` after `now`. */
    constructor Delayed(ctx: TransactionContext, item: Option<Payload>, state: Option<string>, now: int, delayMillis: int)
      ensures Document() == Item(None, item, state, None, None, ctx.transactionId, ctx.correlationId, Some(now + delayMillis))
    {
      id, payload, this.state, stateMessage := None, item, state, None;
      session, transaction, correlation, eligible := None, ctx.transactionId, ctx.correlationId, Some(now + delayMillis);
    }

    /** `setId`: only the id changes. */
    method SetId(id: Option<string>)
      modifies this`id
      ensures Document() == old(Document()).(id := id)
    {
      this.id := id;
    }

    /** `setSession`: only the session changes. */
    method SetSession(session: Option<string>)
      modifies this`session
      ensures Document() == old(Document()).(session := session)
    {
      this.session := session;
    }

    /** `setState`, inherited from `ManagedItem`: only the state changes. */
    method SetState(state: Option<string>)
      modifies this`state
      ensures Document() == old(Document()).(state := state)
    {
      this.state := state;
    }

    /** `setStateMessage`, inherited from `ManagedItem`: only the message changes. */
    method SetStateMessage(message: Option<string>)
      modifies this`stateMessage
      ensures Document() == old(Document()).(stateMessage := message)
    {
      this.stateMessage := message;
    }
  }
}
