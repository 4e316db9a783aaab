/** What each query and update of the listener does to the item collection. */
module StoreProperties {
  import opened Wrappers
  import opened ItemStates
  import opened Items
  import opened MongoStore

  /** The claim update changes only the `session` of a document, only of claimable
      documents it reaches, and sets it to the claimant. */
  lemma ClaimChangesOnlyMatching(items: map<string, Item>, own: string, now: int, delays: bool, chosen: set<string>, k: string)
    requires k in items
    ensures var r := Claimed(items, own, now, delays, chosen);
      && r[k] == items[k].(session := r[k].session)
      && (r[k] != items[k] <==> k in chosen && Claimable(items[k], now, delays))
      && (r[k] != items[k] ==> r[k].session == Some(own))
  {
  }

  /** The documents a claim took over for `own`: unowned before, owned by `own` after. */
  function NewlyOwned(before: map<string, Item>, after: map<string, Item>, own: string): set<string>
  {
    set k | k in before && k in after && before[k].session.None? && after[k].session == Some(own)
  }

  /** The claimable documents among `chosen`. */
  function ClaimableAmong(items: map<string, Item>, now: int, delays: bool, chosen: set<string>): set<string>
  {
    set k | k in items && k in chosen && Claimable(items[k], now, delays)
  }

  /** Two sessions claiming one after the other: the second never takes a document the
      first holds, the first gets every claimable document its update reached, the second
      gets the rest of what its update reached, and together they own exactly the
      claimable documents either update reached, each by exactly one of them. */
  lemma {:induction false} TwoClaimsPartition(s0: map<string, Item>, a: string, b: string, now: int, delays: bool, ca: set<string>, cb: set<string>)
    requires a != b
    ensures var s1 := Claimed(s0, a, now, delays, ca);
      var s2 := Claimed(s1, b, now, delays, cb);
      && (forall k :: k in s1 && s1[k].session == Some(a) ==> s2[k] == s1[k])
      && NewlyOwned(s0, s2, a) == ClaimableAmong(s0, now, delays, ca)
      && NewlyOwned(s0, s2, b) == ClaimableAmong(s0, now, delays, cb) - ca
      && NewlyOwned(s0, s2, a) !! NewlyOwned(s0, s2, b)
      && NewlyOwned(s0, s2, a) + NewlyOwned(s0, s2, b) == ClaimableAmong(s0, now, delays, ca + cb)
      && |NewlyOwned(s0, s2, a)| + |NewlyOwned(s0, s2, b)| == |ClaimableAmong(s0, now, delays, ca + cb)|
  {
    var s1 := Claimed(s0, a, now, delays, ca);
    var s2 := Claimed(s1, b, now, delays, cb);
    var na, nb := NewlyOwned(s0, s2, a), NewlyOwned(s0, s2, b);
    var all := ClaimableAmong(s0, now, delays, ca + cb);
    forall k | k in s0
      ensures k in na <==> k in ca && Claimable(s0[k], now, delays)
      ensures k in nb <==> k in cb && k !in ca && Claimable(s0[k], now, delays)
    {
      ClaimChangesOnlyMatching(s0, a, now, delays, ca, k);
      ClaimChangesOnlyMatching(s1, b, now, delays, cb, k);
    }
    assert na == ClaimableAmong(s0, now, delays, ca);
    assert nb == ClaimableAmong(s0, now, delays, cb) - ca;
    assert na + nb == all;
    assert na !! nb;
  }

  /** With `fetchSize` at least the number of matching documents, the confirm query
      returns every matching document the store's order lists. */
  lemma {:induction false} FindReturnsAll(items: map<string, Item>, own: string, scan: seq<string>, limit: nat, k: string)
    requires WellKeyed(items)
    requires CountOwnedNew(items, own, scan) <= limit
    requires k in scan && k in items && OwnedNew(items[k], own)
    ensures items[k] in FindOwnedNew(items, own, scan, limit)
    decreases scan
  {
    if scan[0] == k {
      assert limit > 0;
    } else if scan[0] in items && OwnedNew(items[scan[0]], own) {
      FindReturnsAll(items, own, scan[1..], limit - 1, k);
    } else {
      FindReturnsAll(items, own, scan[1..], limit, k);
    }
  }

  /** No two items of `r` share an id. */
  predicate DistinctIds(r: seq<Item>)
  {
    forall i, j :: 0 <= i < j < |r| ==> r[i].id != r[j].id
  }

  /** The confirm query returns each document at most once when the store's order lists
      each id once. */
  lemma {:induction false} FindDistinct(items: map<string, Item>, own: string, scan: seq<string>, limit: nat)
    requires WellKeyed(items)
    requires forall i, j :: 0 <= i < j < |scan| ==> scan[i] != scan[j]
    ensures DistinctIds(FindOwnedNew(items, own, scan, limit))
    decreases scan
  {
    if scan != [] && limit != 0 {
      var rest := scan[1..];
      assert forall i, j :: 0 <= i < j < |rest| ==> rest[i] != rest[j] by {
        forall i, j | 0 <= i < j < |rest| ensures rest[i] != rest[j] {
          assert rest[i] == scan[i + 1] && rest[j] == scan[j + 1];
        }
      }
      assert scan[0] !in rest;
      if scan[0] in items && OwnedNew(items[scan[0]], own) {
        FindDistinct(items, own, rest, limit - 1);
        var tail := FindOwnedNew(items, own, rest, limit - 1);
        assert DistinctIds(tail);
        var r := [items[scan[0]]] + tail;
        forall i, j | 0 <= i < j < |r| ensures r[i].id != r[j].id {
          if i == 0 {
            assert r[0].id == Some(scan[0]);
            assert r[j] == tail[j - 1];
            assert Fetched(tail[j - 1]) && tail[j - 1].id.value in rest;
            assert r[j].id != Some(scan[0]);
          } else {
            assert r[i] == tail[i - 1] && r[j] == tail[j - 1];
            assert 0 <= i - 1 < j - 1 < |tail|;
          }
        }
      } else {
        FindDistinct(items, own, rest, limit);
      }
    }
  }

  /** Marking changes only the state of the listed documents, to "B"; the session stays. */
  lemma MarkChangesOnlyListed(items: map<string, Item>, ids: seq<string>, k: string)
    requires k in items
    ensures var r := MarkedBusy(items, ids);
      && (k in ids ==> r[k] == items[k].(state := Some(Id(Busy))) && r[k].session == items[k].session)
      && (k !in ids ==> r[k] == items[k])
  {
  }

  /** Retry changes exactly the documents in state "E" owned by `own`, to state "N" with
      no session; nothing else of them changes. */
  lemma RetryChangesExactly(items: map<string, Item>, own: string, k: string)
    requires k in items
    ensures var r := Retried(items, own);
      && (r[k] != items[k] <==> InState(items[k], Error) && items[k].session == Some(own))
      && (r[k] != items[k] ==> r[k] == items[k].(state := Some(Id(New)), session := None))
  {
  }

  /** Recovery changes exactly the documents owned by a released session, whatever their
      state; documents of any other session, or of none, are untouched. */
  lemma ReleaseChangesExactly(items: map<string, Item>, sids: seq<string>, k: string)
    requires k in items
    ensures var r := Released(items, sids);
      && (r[k] != items[k] <==> items[k].session.Some? && items[k].session.value in sids)
      && (r[k] != items[k] ==> r[k] == items[k].(state := Some(Id(New)), session := None))
  {
  }

  /** Releasing sessions one at a time is releasing them all at once. */
  lemma ReleasedStep(items: map<string, Item>, sids: seq<string>, i: nat)
    requires i < |sids|
    ensures Released(Released(items, sids[..i]), [sids[i]]) == Released(items, sids[..i + 1])
  {
    var lhs := Released(Released(items, sids[..i]), [sids[i]]);
    var rhs := Released(items, sids[..i + 1]);
    assert sids[..i + 1] == sids[..i] + [sids[i]];
    forall k | k in items ensures lhs[k] == rhs[k] {
    }
    assert lhs == rhs;
  }
}
