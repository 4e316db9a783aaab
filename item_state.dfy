/** `ItemState`: the three states of a managed item and their one-letter ids. */
module ItemStates {
  import opened Wrappers

  /** There is no "done" state: a completed item is deleted from the collection. */
  datatype ItemState = New | Busy | Error

  /** `getId()`: the id stored in the `state` field of an item document. */
  function Id(s: ItemState): (r: string)
    ensures |r| == 1
    ensures Parse(r) == Some(s)
  {
    match s
    case New => "N"
    case Busy => "B"
    case Error => "E"
  }

  /** The state whose id is `id`, if any. */
  function Parse(id: string): (r: Option<ItemState>)
  {
    if id == "N" then Some(New)
    else if id == "B" then Some(Busy)
    else if id == "E" then Some(Error)
    else None
  }

  /** Every id that names a state is the id of that state, so `Parse` inverts `Id`
      exactly on the three ids. */
  lemma ParseInvertsId(id: string)
    ensures Parse(id).Some? <==> id in {"N", "B", "E"}
    ensures Parse(id).Some? ==> Id(Parse(id).value) == id
  {
  }

  /** The ids are pairwise distinct. */
  lemma IdInjective(a: ItemState, b: ItemState)
    ensures Id(a) == Id(b) ==> a == b
  {
    assert Parse(Id(a)) == Some(a) && Parse(Id(b)) == Some(b);
  }

  /** There are exactly three states. */
  lemma ExactlyThreeStates(s: ItemState)
    ensures s == New || s == Busy || s == Error
    ensures Id(s) in {"N", "B", "E"}
  {
  }
}
