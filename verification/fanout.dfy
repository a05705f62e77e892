/**
 * Batching fan-out: every record goes to the commit buffer of each sink its
 * (market, channel) is configured for, in the fixed sink order terminal,
 * MySQL, Elasticsearch; a buffer that reaches its sink's commit size is
 * handed off whole (`processWs`, `processREST`).
 */
module FanOut {
  import opened Base
  import opened Config
  import opened Batching

  /** The three buffers of one record kind, one per sink. */
  datatype SinkBuffers<T> = SinkBuffers(terminal: Buffer<T>, mysql: Buffer<T>, es: Buffer<T>)

  function Get<T>(bs: SinkBuffers<T>, s: Sink): Buffer<T> {
    match s
    case Terminal => bs.terminal
    case MySQL => bs.mysql
    case ElasticSearch => bs.es
  }

  function Put<T>(bs: SinkBuffers<T>, s: Sink, b: Buffer<T>): (r: SinkBuffers<T>)
    ensures Get(r, s) == b
    ensures forall o: Sink :: o != s ==> Get(r, o) == Get(bs, o)
  {
    match s
    case Terminal => bs.(terminal := b)
    case MySQL => bs.(mysql := b)
    case ElasticSearch => bs.(es := b)
  }

  predicate AllValid<T>(bs: SinkBuffers<T>) {
    Valid(bs.terminal) && Valid(bs.mysql) && Valid(bs.es)
  }

  function NoBuffers<T>(): (bs: SinkBuffers<T>)
    ensures AllValid(bs) && forall s: Sink :: Get(bs, s).items == []
  {
    SinkBuffers(Empty(), Empty(), Empty())
  }

  /** A batch handed off to a sink. */
  datatype Handoff<T> = Handoff(sink: Sink, batch: seq<T>)

  datatype FanOutResult<T> = FanOutResult(buffers: SinkBuffers<T>, handoffs: seq<Handoff<T>>)

  /** The batches handed off to sink `s`, in order. */
  function BatchesFor<T>(hs: seq<Handoff<T>>, s: Sink): seq<seq<T>>
  {
    if |hs| == 0 then []
    else (if hs[0].sink == s then [hs[0].batch] else []) + BatchesFor(hs[1..], s)
  }

  lemma {:induction false} BatchesForAppend<T>(a: seq<Handoff<T>>, b: seq<Handoff<T>>, s: Sink)
    ensures BatchesFor(a + b, s) == BatchesFor(a, s) + BatchesFor(b, s)
  {
    if |a| == 0 {
      assert a + b == b;
    } else {
      assert (a + b)[1..] == a[1..] + b;
      BatchesForAppend(a[1..], b, s);
    }
  }

  /** What sink `s` sees of one record: the push into its buffer if it is selected, nothing otherwise. */
  ghost predicate SinkStep<T>(before: SinkBuffers<T>, after: SinkBuffers<T>, hs: seq<Handoff<T>>,
                              s: Sink, sinks: set<Sink>, x: T, size: Sink -> int)
    requires AllValid(before)
  {
    if s in sinks then
      var p := Push(Get(before, s), x, size(s));
      Get(after, s) == p.buffer && BatchesFor(hs, s) == (if p.flushed.Some? then [p.flushed.value] else [])
    else
      Get(after, s) == Get(before, s) && BatchesFor(hs, s) == []
  }

  /** One sink's part of the fan-out: append when the sink is selected, hand off when full. */
  function Deliver<T>(bs: SinkBuffers<T>, s: Sink, sinks: set<Sink>, x: T, size: Sink -> int): (r: FanOutResult<T>)
    requires AllValid(bs)
    ensures AllValid(r.buffers)
    ensures SinkStep(bs, r.buffers, r.handoffs, s, sinks, x, size)
    ensures forall o: Sink :: o != s ==> Get(r.buffers, o) == Get(bs, o) && BatchesFor(r.handoffs, o) == []
  {
    if s !in sinks then FanOutResult(bs, [])
    else
      var p := Push(Get(bs, s), x, size(s));
      var hs := if p.flushed.Some? then [Handoff(s, p.flushed.value)] else [];
      assert forall o: Sink :: BatchesFor(hs, o) == (if o == s && p.flushed.Some? then [p.flushed.value] else []) by {
        if p.flushed.Some? {
          assert hs[1..] == [];
        }
      }
      FanOutResult(Put(bs, s, p.buffer), hs)
  }

  /**
   * Fan one record out to the sinks in `sinks`, in the order terminal,
   * MySQL, Elasticsearch.
   */
  function Fan<T>(bs: SinkBuffers<T>, sinks: set<Sink>, x: T, size: Sink -> int): (r: FanOutResult<T>)
    requires AllValid(bs)
    ensures AllValid(r.buffers)
  {
    var t := Deliver(bs, Terminal, sinks, x, size);
    var m := Deliver(t.buffers, MySQL, sinks, x, size);
    var e := Deliver(m.buffers, ElasticSearch, sinks, x, size);
    FanOutResult(e.buffers, t.handoffs + m.handoffs + e.handoffs)
  }

  /**
   * Each selected sink's buffer takes the record and hands off when it
   * reaches that sink's commit size; the buffers of the other sinks are not
   * touched and they are handed nothing.
   */
  lemma FanPerSink<T>(bs: SinkBuffers<T>, sinks: set<Sink>, x: T, size: Sink -> int, s: Sink)
    requires AllValid(bs)
    ensures var r := Fan(bs, sinks, x, size); SinkStep(bs, r.buffers, r.handoffs, s, sinks, x, size)
  {
    var t := Deliver(bs, Terminal, sinks, x, size);
    var m := Deliver(t.buffers, MySQL, sinks, x, size);
    var e := Deliver(m.buffers, ElasticSearch, sinks, x, size);
    BatchesForAppend(t.handoffs, m.handoffs, s);
    BatchesForAppend(t.handoffs + m.handoffs, e.handoffs, s);
  }

  /** A record together with the sinks it is configured for. */
  datatype Routed<T> = Routed(record: T, sinks: set<Sink>)

  /** Fan a stream of records out one after another. */
  function FanAll<T>(bs: SinkBuffers<T>, stream: seq<Routed<T>>, size: Sink -> int): (r: FanOutResult<T>)
    requires AllValid(bs)
    ensures AllValid(r.buffers)
    decreases |stream|
  {
    if |stream| == 0 then FanOutResult(bs, [])
    else
      var first := Fan(bs, stream[0].sinks, stream[0].record, size);
      var rest := FanAll(first.buffers, stream[1..], size);
      FanOutResult(rest.buffers, first.handoffs + rest.handoffs)
  }

  /** The records of a stream that are configured for sink `s`, in order. */
  function RoutedTo<T>(stream: seq<Routed<T>>, s: Sink): seq<T>
  {
    if |stream| == 0 then []
    else (if s in stream[0].sinks then [stream[0].record] else []) + RoutedTo(stream[1..], s)
  }

  /**
   * Seen from one sink, the fan-out is exactly the single-buffer batching of
   * the records configured for that sink: same batches, same leftover.
   */
  lemma {:induction false} FanAllProjection<T>(bs: SinkBuffers<T>, stream: seq<Routed<T>>, size: Sink -> int, s: Sink)
    requires AllValid(bs)
    decreases |stream|
    ensures BatchesFor(FanAll(bs, stream, size).handoffs, s) == PushAll(Get(bs, s), RoutedTo(stream, s), size(s)).batches
    ensures Get(FanAll(bs, stream, size).buffers, s) == PushAll(Get(bs, s), RoutedTo(stream, s), size(s)).buffer
  {
    if |stream| > 0 {
      var first := Fan(bs, stream[0].sinks, stream[0].record, size);
      var rest := FanAll(first.buffers, stream[1..], size);
      FanPerSink(bs, stream[0].sinks, stream[0].record, size, s);
      FanAllProjection(first.buffers, stream[1..], size, s);
      BatchesForAppend(first.handoffs, rest.handoffs, s);
      var tail := RoutedTo(stream[1..], s);
      if s in stream[0].sinks {
        assert RoutedTo(stream, s) == [stream[0].record] + tail;
        assert ([stream[0].record] + tail)[1..] == tail;
      } else {
        assert RoutedTo(stream, s) == tail;
      }
    }
  }

  /**
   * Fan-out correctness for every sink: what was handed to the sink,
   * followed by what it still buffers, is what it buffered before followed
   * by exactly the records configured for it, in arrival order; a record
   * not configured for the sink never reaches it. For a commit size of at
   * least 1 every batch has exactly that size.
   */
  lemma {:induction false} FanAllDelivers<T>(bs: SinkBuffers<T>, stream: seq<Routed<T>>, size: Sink -> int, s: Sink)
    requires AllValid(bs)
    ensures var r := FanAll(bs, stream, size);
      Concat(BatchesFor(r.handoffs, s)) + Get(r.buffers, s).items == Get(bs, s).items + RoutedTo(stream, s)
    ensures size(s) >= 1 && |Get(bs, s).items| < size(s) ==>
      var r := FanAll(bs, stream, size);
      (forall i :: 0 <= i < |BatchesFor(r.handoffs, s)| ==> |BatchesFor(r.handoffs, s)[i]| == size(s)) &&
      |Get(r.buffers, s).items| < size(s)
  {
    FanAllProjection(bs, stream, size, s);
    PushAllPreservesOrder(Get(bs, s), RoutedTo(stream, s), size(s));
    if size(s) >= 1 && |Get(bs, s).items| < size(s) {
      PushAllBatchSizes(Get(bs, s), RoutedTo(stream, s), size(s));
    }
  }

  /** How often a value occurs in a sequence. */
  ghost function Occurrences<T>(xs: seq<T>, x: T): nat
  {
    if |xs| == 0 then 0 else (if xs[0] == x then 1 else 0) + Occurrences(xs[1..], x)
  }

  /**
   * A single record configured for some sinks, fanned out from empty
   * buffers: it ends up exactly once on the delivery path (handed off or
   * buffered) of every configured sink and never on that of another sink.
   */
  lemma SingleRecordRouting<T>(x: T, sinks: set<Sink>, size: Sink -> int, s: Sink)
    ensures var r := FanAll(NoBuffers(), [Routed(x, sinks)], size);
      Occurrences(Concat(BatchesFor(r.handoffs, s)) + Get(r.buffers, s).items, x) == (if s in sinks then 1 else 0)
  {
    var stream := [Routed(x, sinks)];
    FanAllDelivers(NoBuffers(), stream, size, s);
    assert stream[1..] == [];
    assert RoutedTo(stream, s) == (if s in sinks then [x] else []);
    assert Get(NoBuffers<T>(), s).items + RoutedTo(stream, s) == RoutedTo(stream, s);
    if s in sinks {
      assert Occurrences([x], x) == 1 + Occurrences([x][1..], x);
    }
  }
}
