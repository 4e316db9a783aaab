/** Splitting a confirmed list into batches of at most `batchSize` items. */
module Batching {

  /** The batches the listener queues for `items`: the whole list when it has at most
      `size` items, otherwise `size` items at a time in order. */
  function Chunks<T>(items: seq<T>, size: nat): (r: seq<seq<T>>)
    requires size >= 1
    ensures |r| >= 1
    ensures forall i :: 0 <= i < |r| ==> |r[i]| <= size
    ensures items != [] ==> forall i :: 0 <= i < |r| ==> r[i] != []
    decreases |items|
  {
    if |items| <= size then [items] else [items[..size]] + Chunks(items[size..], size)
  }

  /** The batches still to be queued once the split has reached index `start`. */
  function ChunksFrom<T>(items: seq<T>, start: nat, size: nat): seq<seq<T>>
    requires size >= 1
  {
    if start < |items| then Chunks(items[start..], size) else []
  }

  /** The batches concatenated, in order. */
  function Flatten<T>(chunks: seq<seq<T>>): seq<T>
  {
    if chunks == [] then [] else chunks[0] + Flatten(chunks[1..])
  }

  /** A list of at most `size` items is one batch, the list itself. */
  lemma ChunksWhole<T>(items: seq<T>, size: nat)
    requires size >= 1 && |items| <= size
    ensures Chunks(items, size) == [items]
  {
  }

  /** The batches concatenate back to the input, in order. */
  lemma {:induction false} ChunksFlatten<T>(items: seq<T>, size: nat)
    requires size >= 1
    ensures Flatten(Chunks(items, size)) == items
    decreases |items|
  {
    if |items| > size {
      var rest := Chunks(items[size..], size);
      ChunksFlatten(items[size..], size);
      assert ([items[..size]] + rest)[1..] == rest;
      assert items[..size] + items[size..] == items;
    }
  }

  /** Every batch but the last has exactly `size` items, the last has between 1 and
      `size`, and there is at least one batch. */
  lemma {:induction false} ChunkSizes<T>(items: seq<T>, size: nat)
    requires size >= 1 && items != []
    ensures var c := Chunks(items, size);
      && |c| >= 1
      && (forall i :: 0 <= i < |c| - 1 ==> |c[i]| == size)
      && 1 <= |c[|c| - 1]| <= size
    decreases |items|
  {
    if |items| > size {
      ChunkSizes(items[size..], size);
    }
  }

  /** Splitting from `start` queues the batch that starts there, then carries on
      `size` items later. */
  lemma ChunksFromStep<T>(items: seq<T>, start: nat, size: nat)
    requires size >= 1 && start < |items|
    ensures var end := if start + size < |items| then start + size else |items|;
      ChunksFrom(items, start, size) == [items[start..end]] + ChunksFrom(items, start + size, size)
  {
    var rest := items[start..];
    if |rest| > size {
      assert rest[..size] == items[start..start + size];
      assert rest[size..] == items[start + size..];
      assert Chunks(rest, size) == [rest[..size]] + Chunks(rest[size..], size);
    } else {
      assert rest == items[start..|items|];
      assert Chunks(rest, size) == [rest];
    }
  }

  /** The worked case: 250 items in batches of 100 are queued as 100, 100 and 50. */
  lemma ChunksOf250<T>(items: seq<T>)
    requires |items| == 250
    ensures var c := Chunks(items, 100);
      |c| == 3 && |c[0]| == 100 && |c[1]| == 100 && |c[2]| == 50
  {
    var r1, r2 := items[100..], items[100..][100..];
    assert |r1| == 150 && |r2| == 50;
    assert Chunks(r2, 100) == [r2];
    assert Chunks(r1, 100) == [r1[..100]] + [r2];
    assert Chunks(items, 100) == [items[..100]] + ([r1[..100]] + [r2]);
  }

  /** Splitting a non-empty list from its start is splitting the list. */
  lemma ChunksFromStart<T>(items: seq<T>, size: nat)
    requires size >= 1 && items != []
    ensures ChunksFrom(items, 0, size) == Chunks(items, size)
  {
    assert items[0..] == items;
  }
}
