/** `MongoSession`: a listener instance's lease on a collection. */
module Sessions {
  import opened Wrappers

  /** A session document as the store holds it. The `active` flag is transient and is
      not part of it. */
  datatype SessionDoc = SessionDoc(id: Option<string>, collection: Option<string>, heartbeat: int)

  class MongoSession {
    var id: Option<string>
    var collection: Option<string>
    var active: bool
    var heartbeat: int

    /** The document that saving this session writes: everything but `active`. */
    function Document(): SessionDoc
      reads this
    {
      SessionDoc(id, collection, heartbeat)
    }

    /** A new session is inactive, has no id or collection, and a heartbeat of 0. */
    constructor ()
      ensures id.None? && collection.None? && !active && heartbeat == 0
    {
      id, collection, active, heartbeat := None, None, false, 0;
    }

    method SetId(id: Option<string>)
      modifies this`id
      ensures this.id == id
    {
      this.id := id;
    }

    method SetCollection(collection: Option<string>)
      modifies this`collection
      ensures this.collection == collection
    {
      this.collection := collection;
    }

    /** Changing the transient flag leaves the stored form unchanged. */
    method SetActive(active: bool)
      modifies this`active
      ensures this.active == active
      ensures Document() == old(Document())
    {
      this.active := active;
    }

    method SetHeartbeat(heartbeat: int)
      modifies this`heartbeat
      ensures this.heartbeat == heartbeat
    {
      this.heartbeat := heartbeat;
    }
  }
}
