/**
 * The commit buffers of one producer (`commitData`): tickers and trades,
 * each with one buffer per sink, fed the same way by the stream reader and
 * by every poller. Which sinks receive a record is read from the shared
 * configuration index under the record's (market, channel) key.
 */
module Commit {
  import opened Base
  import opened Config
  import opened Batching
  import opened FanOut
  import opened Records

  /** A sink's commit sizes for the two record kinds (`TickerCommitBuf`, `TradeCommitBuf`). */
  datatype SinkSizes = SinkSizes(ticker: int, trade: int)

  /** The commit sizes of the three sinks from the connection configuration. */
  datatype CommitSizes = CommitSizes(terminal: SinkSizes, mysql: SinkSizes, es: SinkSizes) {
    function Of(s: Sink): SinkSizes {
      match s
      case Terminal => terminal
      case MySQL => mysql
      case ElasticSearch => es
    }
  }

  /** `commitData`: six buffers, one per record kind and sink. */
  datatype CommitData = CommitData(tickers: SinkBuffers<Ticker>, trades: SinkBuffers<Trade>)

  predicate ValidData(cd: CommitData) {
    AllValid(cd.tickers) && AllValid(cd.trades)
  }

  /** Fresh buffers, as each producer starts with. */
  function NewCommitData(): (cd: CommitData)
    ensures ValidData(cd)
  {
    CommitData(NoBuffers(), NoBuffers())
  }

  /** A batch handed to a sink's delivery queue (stream) or commit call (poll). */
  datatype Emission = TickerBatch(sink: Sink, tickers: seq<Ticker>) | TradeBatch(sink: Sink, trades: seq<Trade>)

  datatype Committed = Committed(data: CommitData, emitted: seq<Emission>)

  function TickerHandoffs(hs: seq<Handoff<Ticker>>): (es: seq<Emission>)
    ensures |es| == |hs|
    ensures forall i :: 0 <= i < |hs| ==> es[i] == TickerBatch(hs[i].sink, hs[i].batch)
  {
    if |hs| == 0 then [] else [TickerBatch(hs[0].sink, hs[0].batch)] + TickerHandoffs(hs[1..])
  }

  function TradeHandoffs(hs: seq<Handoff<Trade>>): (es: seq<Emission>)
    ensures |es| == |hs|
    ensures forall i :: 0 <= i < |hs| ==> es[i] == TradeBatch(hs[i].sink, hs[i].batch)
  {
    if |hs| == 0 then [] else [TradeBatch(hs[0].sink, hs[0].batch)] + TradeHandoffs(hs[1..])
  }

  /** The ticker batches handed to sink `s`, in order. */
  function TickersTo(es: seq<Emission>, s: Sink): seq<seq<Ticker>> {
    if |es| == 0 then []
    else (if es[0].TickerBatch? && es[0].sink == s then [es[0].tickers] else []) + TickersTo(es[1..], s)
  }

  /** The trade batches handed to sink `s`, in order. */
  function TradesTo(es: seq<Emission>, s: Sink): seq<seq<Trade>> {
    if |es| == 0 then []
    else (if es[0].TradeBatch? && es[0].sink == s then [es[0].trades] else []) + TradesTo(es[1..], s)
  }

  lemma {:induction false} TickersToHandoffs(hs: seq<Handoff<Ticker>>, s: Sink)
    ensures TickersTo(TickerHandoffs(hs), s) == BatchesFor(hs, s)
  {
    if |hs| > 0 {
      TickersToHandoffs(hs[1..], s);
    }
  }

  lemma {:induction false} TradesToHandoffs(hs: seq<Handoff<Trade>>, s: Sink)
    ensures TradesTo(TradeHandoffs(hs), s) == BatchesFor(hs, s)
  {
    if |hs| > 0 {
      TradesToHandoffs(hs[1..], s);
    }
  }

  /**
   * What one sink sees of one record `x`: when the sink is selected, `x` is
   * pushed into its buffer and it is handed the batch that push flushes, if
   * any; otherwise its buffer is untouched and it is handed nothing.
   */
  ghost predicate SinkGets<T>(before: Buffer<T>, after: Buffer<T>, batches: seq<seq<T>>, selected: bool, x: T, size: int)
    requires Valid(before)
  {
    if selected then after == Push(before, x, size).buffer && batches == Flushed(Push(before, x, size))
    else after == before && batches == []
  }

  /** The sinks the shared index configures for a record of `channel` on market `mktId`; none for an unknown pair. */
  function SinksFor(idx: Index, mktId: string, channel: string): set<Sink> {
    Lookup(idx.cfg, Key(mktId, channel)).sinks
  }

  /** Buffer one ticker for every sink its market's ticker channel is configured for. */
  function CommitTicker(idx: Index, sizes: CommitSizes, cd: CommitData, t: Ticker): (r: Committed)
    requires ValidData(cd)
    ensures ValidData(r.data)
    ensures r.data.trades == cd.trades
    ensures forall i :: 0 <= i < |r.emitted| ==>
              r.emitted[i].TickerBatch? && r.emitted[i].sink in SinksFor(idx, t.mktId, "ticker")
    ensures forall s: Sink {:trigger TickersTo(r.emitted, s)} :: SinkGets(Get(cd.tickers, s), Get(r.data.tickers, s), TickersTo(r.emitted, s),
                                       s in SinksFor(idx, t.mktId, "ticker"), t, sizes.Of(s).ticker)
  {
    var sinks := SinksFor(idx, t.mktId, "ticker");
    var f := Fan(cd.tickers, sinks, t, s => sizes.Of(s).ticker);
    assert forall s: Sink :: s !in sinks ==> BatchesFor(f.handoffs, s) == [] by {
      forall s: Sink ensures s !in sinks ==> BatchesFor(f.handoffs, s) == [] {
        FanPerSink(cd.tickers, sinks, t, s => sizes.Of(s).ticker, s);
      }
    }
    assert forall s: Sink :: SinkGets(Get(cd.tickers, s), Get(f.buffers, s), TickersTo(TickerHandoffs(f.handoffs), s),
                                      s in sinks, t, sizes.Of(s).ticker) by {
      forall s: Sink
        ensures SinkGets(Get(cd.tickers, s), Get(f.buffers, s), TickersTo(TickerHandoffs(f.handoffs), s),
                         s in sinks, t, sizes.Of(s).ticker)
      {
        FanPerSink(cd.tickers, sinks, t, s => sizes.Of(s).ticker, s);
        TickersToHandoffs(f.handoffs, s);
      }
    }
    HandoffSinks(f.handoffs, sinks);
    Committed(CommitData(f.buffers, cd.trades), TickerHandoffs(f.handoffs))
  }

  /** Buffer one trade for every sink its market's trade channel is configured for. */
  function CommitTrade(idx: Index, sizes: CommitSizes, cd: CommitData, t: Trade): (r: Committed)
    requires ValidData(cd)
    ensures ValidData(r.data)
    ensures r.data.tickers == cd.tickers
    ensures forall i :: 0 <= i < |r.emitted| ==>
              r.emitted[i].TradeBatch? && r.emitted[i].sink in SinksFor(idx, t.mktId, "trade")
    ensures forall s: Sink {:trigger TradesTo(r.emitted, s)} :: SinkGets(Get(cd.trades, s), Get(r.data.trades, s), TradesTo(r.emitted, s),
                                       s in SinksFor(idx, t.mktId, "trade"), t, sizes.Of(s).trade)
  {
    var sinks := SinksFor(idx, t.mktId, "trade");
    var f := Fan(cd.trades, sinks, t, s => sizes.Of(s).trade);
    assert forall s: Sink :: s !in sinks ==> BatchesFor(f.handoffs, s) == [] by {
      forall s: Sink ensures s !in sinks ==> BatchesFor(f.handoffs, s) == [] {
        FanPerSink(cd.trades, sinks, t, s => sizes.Of(s).trade, s);
      }
    }
    assert forall s: Sink :: SinkGets(Get(cd.trades, s), Get(f.buffers, s), TradesTo(TradeHandoffs(f.handoffs), s),
                                      s in sinks, t, sizes.Of(s).trade) by {
      forall s: Sink
        ensures SinkGets(Get(cd.trades, s), Get(f.buffers, s), TradesTo(TradeHandoffs(f.handoffs), s),
                         s in sinks, t, sizes.Of(s).trade)
      {
        FanPerSink(cd.trades, sinks, t, s => sizes.Of(s).trade, s);
        TradesToHandoffs(f.handoffs, s);
      }
    }
    HandoffSinks(f.handoffs, sinks);
    Committed(CommitData(cd.tickers, f.buffers), TradeHandoffs(f.handoffs))
  }

  /** A sink that is handed no batch does not occur among the hand-offs. */
  lemma {:induction false} HandoffSinks<T>(hs: seq<Handoff<T>>, sinks: set<Sink>)
    requires forall s: Sink :: s !in sinks ==> BatchesFor(hs, s) == []
    ensures forall i :: 0 <= i < |hs| ==> hs[i].sink in sinks
  {
    if |hs| > 0 {
      var s0 := hs[0].sink;
      assert |BatchesFor(hs, s0)| > 0;
      forall s: Sink | s !in sinks ensures BatchesFor(hs[1..], s) == [] {
        assert s != s0;
      }
      HandoffSinks(hs[1..], sinks);
      forall i | 1 <= i < |hs| ensures hs[i].sink in sinks {
        assert hs[i] == hs[1..][i - 1];
      }
    }
  }
}
