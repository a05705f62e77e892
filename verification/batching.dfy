/**
 * One commit buffer of `commitData` (for one record kind and one sink): the
 * records gathered so far and their count. When the count reaches the
 * configured commit size the whole buffer is handed off and a fresh empty one
 * takes its place (`processWs`, `processREST`).
 */
module Batching {
  import opened Base

  /** The records gathered since the last hand-off, oldest first, and the separately kept counter. */
  datatype Buffer<T> = Buffer(items: seq<T>, count: int)

  /** The counter matches the number of records held. */
  predicate Valid<T>(b: Buffer<T>) {
    b.count == |b.items|
  }

  function Empty<T>(): (b: Buffer<T>)
    ensures Valid(b) && b.items == []
  {
    Buffer([], 0)
  }

  /** The buffer after one record and the batch handed off by it, if any. */
  datatype PushResult<T> = PushResult(buffer: Buffer<T>, flushed: Option<seq<T>>)

  /**
   * Append one record; when the counter then equals `size`, hand off every
   * record held, in arrival order, and start over empty.
   */
  function Push<T>(b: Buffer<T>, x: T, size: int): (r: PushResult<T>)
    requires Valid(b)
    ensures Valid(r.buffer)
    ensures r.flushed.Some? <==> |b.items| + 1 == size
    ensures r.flushed.Some? ==> r.flushed.value == b.items + [x] && |r.flushed.value| == size && r.buffer.items == []
    ensures r.flushed.None? ==> r.buffer.items == b.items + [x]
    ensures 1 <= size && |b.items| < size ==> |r.buffer.items| < size
    ensures size <= 0 ==> r.flushed.None?
  {
    var count := b.count + 1;
    var items := b.items + [x];
    if count == size then PushResult(Empty(), Some(items)) else PushResult(Buffer(items, count), None)
  }

  /** The batches a single push hands off: none, or the one it flushed. */
  function Flushed<T>(r: PushResult<T>): seq<seq<T>> {
    if r.flushed.Some? then [r.flushed.value] else []
  }

  /** The buffer after a run of records and the batches handed off along the way, in order. */
  datatype RunResult<T> = RunResult(buffer: Buffer<T>, batches: seq<seq<T>>)

  function PushAll<T>(b: Buffer<T>, xs: seq<T>, size: int): (r: RunResult<T>)
    requires Valid(b)
    ensures Valid(r.buffer)
    decreases |xs|
  {
    if |xs| == 0 then RunResult(b, [])
    else
      var step := Push(b, xs[0], size);
      var rest := PushAll(step.buffer, xs[1..], size);
      RunResult(rest.buffer, Flushed(step) + rest.batches)
  }

  /** All batches laid end to end. */
  function Concat<T>(batches: seq<seq<T>>): seq<T>
  {
    if |batches| == 0 then [] else batches[0] + Concat(batches[1..])
  }

  /** One push loses nothing: what it hands off followed by what it keeps is the old buffer and the new record. */
  lemma PushKeepsAll<T>(b: Buffer<T>, x: T, size: int)
    requires Valid(b)
    ensures var r := Push(b, x, size); Concat(Flushed(r)) + r.buffer.items == b.items + [x]
  {
    var r := Push(b, x, size);
    if r.flushed.Some? {
      assert Flushed(r)[1..] == [];
    }
  }

  /**
   * Nothing is lost, duplicated or reordered: the handed-off batches followed
   * by what is still buffered are the records held at the start followed by
   * the new ones.
   */
  lemma {:induction false} PushAllPreservesOrder<T>(b: Buffer<T>, xs: seq<T>, size: int)
    requires Valid(b)
    decreases |xs|
    ensures Concat(PushAll(b, xs, size).batches) + PushAll(b, xs, size).buffer.items == b.items + xs
  {
    if |xs| > 0 {
      var step := Push(b, xs[0], size);
      PushAllPreservesOrder(step.buffer, xs[1..], size);
      var rest := PushAll(step.buffer, xs[1..], size);
      var all := PushAll(b, xs, size);
      var x := xs[0];
      assert (b.items + [x]) + xs[1..] == b.items + xs by {
        assert xs == [x] + xs[1..];
      }
      if step.flushed.Some? {
        assert all.batches == [b.items + [x]] + rest.batches;
        assert all.batches[1..] == rest.batches;
        assert Concat(all.batches) == (b.items + [x]) + Concat(rest.batches);
        assert Concat(rest.batches) + rest.buffer.items == xs[1..];
      } else {
        assert all.batches == rest.batches;
      }
    }
  }

  /**
   * For a commit size of at least 1 every batch holds exactly `size`
   * records, the buffer never reaches `size`, and the records seen split
   * into whole batches plus what is still buffered (so the number of
   * batches is the number of records divided by `size`).
   */
  lemma {:induction false} PushAllBatchSizes<T>(b: Buffer<T>, xs: seq<T>, size: int)
    requires Valid(b) && size >= 1 && |b.items| < size
    decreases |xs|
    ensures forall i :: 0 <= i < |PushAll(b, xs, size).batches| ==> |PushAll(b, xs, size).batches[i]| == size
    ensures |PushAll(b, xs, size).buffer.items| < size
    ensures |PushAll(b, xs, size).batches| * size + |PushAll(b, xs, size).buffer.items| == |b.items| + |xs|
  {
    if |xs| > 0 {
      var step := Push(b, xs[0], size);
      PushAllBatchSizes(step.buffer, xs[1..], size);
      var rest := PushAll(step.buffer, xs[1..], size);
      if step.flushed.Some? {
        assert (|rest.batches| + 1) * size == |rest.batches| * size + size;
      }
    }
  }

  /**
   * Records that do not fill the buffer are all held; the record that fills
   * it to exactly `size` hands off one batch of everything, in order.
   */
  lemma {:induction false} FillThenFlush<T>(b: Buffer<T>, xs: seq<T>, size: int)
    requires Valid(b) && |b.items| + |xs| <= size
    decreases |xs|
    ensures |b.items| + |xs| < size ==> PushAll(b, xs, size) == RunResult(Buffer(b.items + xs, |b.items| + |xs|), [])
    ensures |b.items| + |xs| == size && |xs| > 0 ==> PushAll(b, xs, size) == RunResult(Empty(), [b.items + xs])
  {
    if |xs| > 0 {
      var step := Push(b, xs[0], size);
      assert b.items + xs == b.items + [xs[0]] + xs[1..];
      if |b.items| + 1 < size {
        FillThenFlush(step.buffer, xs[1..], size);
      } else {
        assert xs == [xs[0]];
        assert step == PushResult(Empty(), Some(b.items + [xs[0]]));
        assert PushAll(step.buffer, xs[1..], size) == RunResult(Empty(), []);
      }
    }
  }

  /** A commit size of 0 (or less) never hands anything off: every record stays buffered. */
  lemma {:induction false} PushAllNeverFlushes<T>(b: Buffer<T>, xs: seq<T>, size: int)
    requires Valid(b) && size <= 0
    decreases |xs|
    ensures PushAll(b, xs, size).batches == []
    ensures PushAll(b, xs, size).buffer.items == b.items + xs
  {
    PushAllPreservesOrder(b, xs, size);
    if |xs| > 0 {
      PushAllNeverFlushes(Push(b, xs[0], size).buffer, xs[1..], size);
    }
  }

  /** Exactly `size` records into a fresh buffer: one batch of all of them, in order, and an empty buffer after. */
  lemma FullBatch<T>(xs: seq<T>, size: int)
    requires size >= 1 && |xs| == size
    ensures PushAll(Empty(), xs, size) == RunResult(Empty(), [xs])
  {
    FillThenFlush(Empty(), xs, size);
    assert Empty<T>().items + xs == xs;
  }
}
