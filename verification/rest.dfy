/**
 * One tick of a REST poller (`processREST`): the request for the pair is
 * sent, the reply decoded, every item normalised and buffered for its sinks
 * directly, without a queue. The first failure of any kind ends the poller
 * (and with it the connection attempt); batches handed off before it stay
 * handed off.
 */
module Poller {
  import opened Base
  import opened Config
  import opened Batching
  import opened FanOut
  import opened Records
  import opened Commit

  /** What one request yields: a transport failure, a body that does not decode, or the decoded body. */
  datatype Reply<T> = NoReply | Undecodable | Reply(body: T)

  /** Why a poller stops. */
  datatype PollError = RequestError | DecodeError | BadRecord(reason: NormalizeError)

  /** The outcome of one tick: the poller goes on with new buffers, or halts. */
  datatype Tick = Polled(data: CommitData, emitted: seq<Emission>) | Halted(error: PollError, emitted: seq<Emission>)

  /**
   * A tick of a ticker poller: the level-1 reply's price becomes a ticker
   * stamped with the time of receipt, buffered for the sinks of the pair's
   * ticker channel.
   */
  function PollTicker(idx: Index, sizes: CommitSizes, cd: CommitData, mktId: string, commitName: string,
                      reply: Reply<Payload>, now: int, parse: Parser): (r: Tick)
    requires ValidData(cd)
    ensures reply == NoReply ==> r == Halted(RequestError, [])
    ensures reply == Undecodable ==> r == Halted(DecodeError, [])
    ensures reply.Reply? ==> (r.Polled? <==> parse(reply.body.price).Some?)
    ensures reply.Reply? && r.Halted? ==> r == Halted(BadRecord(BadPrice), [])
    ensures r.Polled? ==> ValidData(r.data) && r.data.trades == cd.trades
    ensures r.Polled? ==> forall i :: 0 <= i < |r.emitted| ==>
              r.emitted[i].TickerBatch? && r.emitted[i].sink in SinksFor(idx, mktId, "ticker")
    ensures r.Polled? ==>
              var c := CommitTicker(idx, sizes, cd, Ticker(ExchangeName, mktId, commitName, parse(reply.body.price).value, now));
              r == Polled(c.data, c.emitted)
  {
    match reply
    case NoReply => Halted(RequestError, [])
    case Undecodable => Halted(DecodeError, [])
    case Reply(p) =>
      match MakeTicker(mktId, commitName, p, now, parse)
      case Rejected(e) => Halted(BadRecord(e), [])
      case Record(t) =>
        var c := CommitTicker(idx, sizes, cd, t);
        Polled(c.data, c.emitted)
  }

  /** Where the scan of a trade reply stopped: the position of the first item that is not a valid trade, and why. */
  datatype Rejection = Rejection(index: nat, reason: NormalizeError)

  /** The trades normalised before the first invalid item, and that item if there is one. */
  datatype Scan = Scan(accepted: seq<Trade>, rejection: Option<Rejection>)

  /**
   * Normalise the items of a trade reply in order up to the first invalid
   * one; nothing from that item on is looked at.
   */
  function ScanTrades(mktId: string, commitName: string, items: seq<Payload>, parse: Parser): (r: Scan)
    ensures |r.accepted| <= |items|
  {
    if |items| == 0 then Scan([], None)
    else
      var before := ScanTrades(mktId, commitName, items[..|items| - 1], parse);
      if before.rejection.Some? then before
      else
        match PollTrade(mktId, commitName, items[|items| - 1], parse)
        case Rejected(e) => Scan(before.accepted, Some(Rejection(|items| - 1, e)))
        case Record(t) => Scan(before.accepted + [t], None)
  }

  /**
   * The scan stops exactly at the first invalid item: every item before it
   * is the corresponding accepted trade, the stop records that item's
   * position and why it was rejected, and a reply with no invalid item is
   * accepted whole.
   */
  lemma {:induction false} ScanTradesSpec(mktId: string, commitName: string, items: seq<Payload>, parse: Parser)
    ensures var r := ScanTrades(mktId, commitName, items, parse);
      && (r.rejection.None? <==> forall i :: 0 <= i < |items| ==> PollTrade(mktId, commitName, items[i], parse).Record?)
      && (r.rejection.None? ==> |r.accepted| == |items|)
      && (r.rejection.Some? ==>
            var k := r.rejection.value.index;
            k < |items| && |r.accepted| == k &&
            PollTrade(mktId, commitName, items[k], parse) == Rejected(r.rejection.value.reason))
      && (forall i :: 0 <= i < |r.accepted| ==> PollTrade(mktId, commitName, items[i], parse) == Record(r.accepted[i]))
  {
    if |items| > 0 {
      var init := items[..|items| - 1];
      ScanTradesSpec(mktId, commitName, init, parse);
      var before := ScanTrades(mktId, commitName, init, parse);
      assert forall i :: 0 <= i < |init| ==> items[i] == init[i];
      if before.rejection.None? {
        match PollTrade(mktId, commitName, items[|items| - 1], parse)
        case Rejected(e) =>
        case Record(t) =>
          var acc := before.accepted + [t];
          assert forall i :: 0 <= i < |before.accepted| ==> acc[i] == before.accepted[i];
      }
    }
  }

  /** Buffer a sequence of trades one after another, collecting the batches handed off. */
  function CommitAll(idx: Index, sizes: CommitSizes, cd: CommitData, trades: seq<Trade>): (r: Committed)
    requires ValidData(cd)
    ensures ValidData(r.data) && r.data.tickers == cd.tickers
    decreases |trades|
  {
    if |trades| == 0 then Committed(cd, [])
    else
      var first := CommitTrade(idx, sizes, cd, trades[0]);
      var rest := CommitAll(idx, sizes, first.data, trades[1..]);
      Committed(rest.data, first.emitted + rest.emitted)
  }

  /**
   * A tick of a trade poller: the items of the histories reply are buffered
   * in order, each for the sinks of the pair's trade channel; the first
   * invalid item halts the poller, keeping the hand-offs of the items before
   * it.
   */
  method PollTrades(idx: Index, sizes: CommitSizes, cd: CommitData, mktId: string, commitName: string,
                    reply: Reply<seq<Payload>>, parse: Parser) returns (r: Tick)
    requires ValidData(cd)
    ensures reply == NoReply ==> r == Halted(RequestError, [])
    ensures reply == Undecodable ==> r == Halted(DecodeError, [])
    ensures reply.Reply? ==> r == TradesTick(idx, sizes, cd, ScanTrades(mktId, commitName, reply.body, parse))
  {
    match reply {
      case NoReply => return Halted(RequestError, []);
      case Undecodable => return Halted(DecodeError, []);
      case Reply(items) => r := BufferTrades(idx, sizes, cd, mktId, commitName, items, parse);
    }
  }

  /**
   * What a trade tick amounts to once its reply is scanned: the accepted
   * trades are buffered; the poller goes on if all items were trades and
   * halts on the first invalid one otherwise, keeping the hand-offs.
   */
  function TradesTick(idx: Index, sizes: CommitSizes, cd: CommitData, scan: Scan): Tick
    requires ValidData(cd)
  {
    var c := CommitAll(idx, sizes, cd, scan.accepted);
    if scan.rejection.None? then Polled(c.data, c.emitted) else Halted(BadRecord(scan.rejection.value.reason), c.emitted)
  }

  /** The loop of a trade tick over the decoded items. */
  method BufferTrades(idx: Index, sizes: CommitSizes, cd: CommitData, mktId: string, commitName: string,
                      items: seq<Payload>, parse: Parser) returns (r: Tick)
    requires ValidData(cd)
    ensures r == TradesTick(idx, sizes, cd, ScanTrades(mktId, commitName, items, parse))
  {
    ghost var scan := ScanTrades(mktId, commitName, items, parse);
    ghost var total := CommitAll(idx, sizes, cd, scan.accepted);
    var data := cd;
    var emitted: seq<Emission> := [];
    var i := 0;
    assert scan.accepted[0..] == scan.accepted;
    while i < |items|
      invariant 0 <= i <= |scan.accepted|
      invariant ValidData(data)
      invariant Remaining(idx, sizes, data, emitted, scan.accepted[i..], total)
    {
      match PollTrade(mktId, commitName, items[i], parse) {
        case Rejected(e) =>
          assert i == |scan.accepted| && scan.rejection == Some(Rejection(i, e)) by {
            ScanAt(mktId, commitName, items, parse, i);
          }
          assert scan.accepted[i..] == [];
          return Halted(BadRecord(e), emitted);
        case Record(t) =>
          assert i < |scan.accepted| && scan.accepted[i] == t by {
            ScanAt(mktId, commitName, items, parse, i);
          }
          RemainingStep(idx, sizes, data, emitted, scan.accepted, i, total);
          var c := CommitTrade(idx, sizes, data, t);
          data := c.data;
          emitted := emitted + c.emitted;
      }
      i := i + 1;
    }
    ScanWhole(mktId, commitName, items, parse);
    assert scan.accepted[i..] == [];
    return Polled(data, emitted);
  }

  /**
   * The loop's invariant: buffering the trades still to come, starting from
   * the current buffers, completes what was handed off so far into the
   * whole tick's result.
   */
  ghost predicate Remaining(idx: Index, sizes: CommitSizes, data: CommitData, emitted: seq<Emission>,
                            rest: seq<Trade>, total: Committed)
  {
    ValidData(data) &&
    var c := CommitAll(idx, sizes, data, rest);
    c.data == total.data && emitted + c.emitted == total.emitted
  }

  lemma RemainingStep(idx: Index, sizes: CommitSizes, data: CommitData, emitted: seq<Emission>,
                      trades: seq<Trade>, i: nat, total: Committed)
    requires i < |trades| && Remaining(idx, sizes, data, emitted, trades[i..], total)
    ensures var c := CommitTrade(idx, sizes, data, trades[i]);
      Remaining(idx, sizes, c.data, emitted + c.emitted, trades[i + 1..], total)
  {
    assert trades[i..][1..] == trades[i + 1..];
  }

  /** Where item `i` stands in the scan: before the stop it is the i-th accepted trade, at the stop it is the rejection. */
  lemma ScanAt(mktId: string, commitName: string, items: seq<Payload>, parse: Parser, i: nat)
    requires i < |items|
    ensures var scan := ScanTrades(mktId, commitName, items, parse);
      (i < |scan.accepted| ==> PollTrade(mktId, commitName, items[i], parse) == Record(scan.accepted[i])) &&
      (i == |scan.accepted| ==> PollTrade(mktId, commitName, items[i], parse).Rejected? &&
                                 scan.rejection == Some(Rejection(i, PollTrade(mktId, commitName, items[i], parse).error)))
  {
    ScanTradesSpec(mktId, commitName, items, parse);
  }

  /** A scan that covered every item stopped nowhere. */
  lemma ScanWhole(mktId: string, commitName: string, items: seq<Payload>, parse: Parser)
    requires |ScanTrades(mktId, commitName, items, parse).accepted| == |items|
    ensures ScanTrades(mktId, commitName, items, parse).rejection.None?
  {
    ScanTradesSpec(mktId, commitName, items, parse);
  }

  /** Once the scan has stopped at an item, further items do not change it. */
  lemma {:induction false} ScanPrefix(mktId: string, commitName: string, items: seq<Payload>, parse: Parser, n: nat)
    requires n <= |items| && ScanTrades(mktId, commitName, items[..n], parse).rejection.Some?
    ensures ScanTrades(mktId, commitName, items, parse) == ScanTrades(mktId, commitName, items[..n], parse)
    decreases |items| - n
  {
    if n < |items| {
      assert items[..|items| - 1][..n] == items[..n];
      ScanPrefix(mktId, commitName, items[..|items| - 1], parse, n);
    } else {
      assert items[..n] == items;
    }
  }

  /** The trades of a reply, each with the sinks the index configures for the pair's trade channel. */
  function RouteTrades(idx: Index, trades: seq<Trade>): (stream: seq<Routed<Trade>>)
    ensures |stream| == |trades|
    ensures forall i :: 0 <= i < |trades| ==> stream[i] == Routed(trades[i], SinksFor(idx, trades[i].mktId, "trade"))
  {
    seq(|trades|, i requires 0 <= i < |trades| => Routed(trades[i], SinksFor(idx, trades[i].mktId, "trade")))
  }

  lemma {:induction false} TradeHandoffsAppend(a: seq<Handoff<Trade>>, b: seq<Handoff<Trade>>)
    ensures TradeHandoffs(a + b) == TradeHandoffs(a) + TradeHandoffs(b)
  {
    var l := TradeHandoffs(a + b);
    var r := TradeHandoffs(a) + TradeHandoffs(b);
    assert |l| == |r|;
    forall i | 0 <= i < |l| ensures l[i] == r[i] {
      if i >= |a| {
        assert (a + b)[i] == b[i - |a|];
      }
    }
  }

  /**
   * Buffering a poll reply's trades is the fan-out of the routed stream of
   * those trades: the trade buffers end as the fan-out leaves them and the
   * emissions are its hand-offs, in order. With `FanAllDelivers` this says
   * that every sink receives exactly the reply's trades configured for it,
   * in reply order, in batches of its commit size.
   */
  lemma {:induction false} CommitAllIsFanOut(idx: Index, sizes: CommitSizes, cd: CommitData, trades: seq<Trade>)
    requires ValidData(cd)
    decreases |trades|
    ensures var f := FanAll(cd.trades, RouteTrades(idx, trades), s => sizes.Of(s).trade);
      var c := CommitAll(idx, sizes, cd, trades);
      c.data.trades == f.buffers && c.emitted == TradeHandoffs(f.handoffs)
  {
    var size := s => sizes.Of(s).trade;
    if |trades| > 0 {
      var first := CommitTrade(idx, sizes, cd, trades[0]);
      CommitAllIsFanOut(idx, sizes, first.data, trades[1..]);
      var stream := RouteTrades(idx, trades);
      assert stream[1..] == RouteTrades(idx, trades[1..]);
      var fan := Fan(cd.trades, stream[0].sinks, stream[0].record, size);
      assert first.data.trades == fan.buffers && first.emitted == TradeHandoffs(fan.handoffs);
      TradeHandoffsAppend(fan.handoffs, FanAll(fan.buffers, stream[1..], size).handoffs);
    }
  }
}
