/**
 * One turn of the stream reader loop (`readWs`) and the record processing
 * it hands accepted data messages to (`processWs`). The reader works on a
 * private copy of the configuration map, taken once when it starts; the
 * shared index is only read (for the sinks of a record).
 */
module Reader {
  import opened Base
  import opened Decimal
  import opened Topics
  import opened Config
  import opened Throttle
  import opened Records
  import opened FanOut
  import opened Commit

  /** How a websocket read failed: closed by this process, end of stream from the venue, anything else. */
  datatype ReadFailure = ClosedLocally | EndOfStream | OtherFailure

  /** What one read yields: a failure, an empty frame, a frame that is not valid JSON, or a decoded envelope. */
  datatype Frame =
    | ReadFailed(cause: ReadFailure)
    | EmptyFrame
    | Undecodable
    | Envelope(kind: string, id: string, topic: string, data: Payload)

  /** Why the reader stops. */
  datatype ReaderError =
    | Canceled                        // "context canceled"
    | PeerClosed                      // "connection close by exchange server"
    | ReadError                       // any other read error
    | DecodeError                     // the frame is not a valid envelope
    | AckIdError                      // an acknowledgement id that is not a decimal integer
    | BadRecord(reason: NormalizeError)

  /** The reader's private map copy and its commit buffers. */
  datatype ReaderState = ReaderState(local: map<Key, Entry>, commit: CommitData)

  datatype Step = Continue(state: ReaderState, emitted: seq<Emission>) | Stop(error: ReaderError)

  /** The reader's starting state: a copy of the index's map and fresh buffers. */
  function StartReader(idx: Index): (st: ReaderState)
    ensures st.local == idx.cfg && ValidData(st.commit)
    ensures forall s: Sink :: Get(st.commit.tickers, s).items == [] && Get(st.commit.trades, s).items == []
  {
    ReaderState(idx.cfg, NewCommitData())
  }

  datatype Processed = Done(result: Committed) | Failed(reason: NormalizeError)

  /** `processWs`: build the record of an accepted message and buffer it for its sinks. */
  function ProcessWs(idx: Index, sizes: CommitSizes, cd: CommitData, market: string, commitName: string,
                     channel: Channel, data: Payload, now: int, parse: Parser): (r: Processed)
    requires ValidData(cd)
    ensures r.Done? ==> ValidData(r.result.data)
    ensures r.Done? ==> forall i :: 0 <= i < |r.result.emitted| ==>
              r.result.emitted[i].sink in SinksFor(idx, market, channel.Name())
    ensures channel.Ticker? ==> (r.Failed? <==> parse(data.price).None?) && (r.Failed? ==> r.reason == BadPrice)
    ensures channel.Ticker? && r.Done? ==>
              var t := Records.Ticker(ExchangeName, market, commitName, parse(data.price).value, now);
              r.result.data.trades == cd.trades &&
              forall s: Sink :: SinkGets(Get(cd.tickers, s), Get(r.result.data.tickers, s), TickersTo(r.result.emitted, s),
                                         s in SinksFor(idx, market, "ticker"), t, sizes.Of(s).ticker)
    ensures channel.Trade? ==>
              && (r.Failed? <==> PushTrade(market, commitName, data, parse).Rejected?)
              && (r.Failed? ==> r.reason == PushTrade(market, commitName, data, parse).error)
    ensures channel.Trade? && r.Done? ==>
              var t := PushTrade(market, commitName, data, parse).record;
              r.result.data.tickers == cd.tickers &&
              forall s: Sink :: SinkGets(Get(cd.trades, s), Get(r.result.data.trades, s), TradesTo(r.result.emitted, s),
                                         s in SinksFor(idx, market, "trade"), t, sizes.Of(s).trade)
  {
    match channel
    case Ticker =>
      (match MakeTicker(market, commitName, data, now, parse)
       case Rejected(e) => Failed(e)
       case Record(t) => Done(CommitTicker(idx, sizes, cd, t)))
    case Trade =>
      (match PushTrade(market, commitName, data, parse)
       case Rejected(e) => Failed(e)
       case Record(t) => Done(CommitTrade(idx, sizes, cd, t)))
  }

  /** The key a decoded data message is throttled and routed under. */
  function MessageKey(market: string, channel: Channel): Key {
    Key(market, channel.Name())
  }

  /**
   * One turn of `readWs` at time `now`; `ctxDone` says whether the
   * attempt's context has already ended. Pong frames, empty frames,
   * acknowledgements, undecodable topics, throttled updates and frames of
   * any other type are skipped; read and decode failures stop the reader.
   */
  function ReadStep(idx: Index, sizes: CommitSizes, st: ReaderState, frame: Frame, now: int, ctxDone: bool,
                    parse: Parser): (r: Step)
    requires ValidData(st.commit)
    ensures r.Continue? ==> ValidData(r.state.commit)
    ensures ctxDone ==> r == Stop(Canceled)
    ensures !ctxDone && frame.ReadFailed? ==>
              r == Stop(match frame.cause
                        case ClosedLocally => Canceled
                        case EndOfStream => PeerClosed
                        case OtherFailure => ReadError)
    ensures !ctxDone && frame == Undecodable ==> r == Stop(DecodeError)
    ensures !ctxDone && (frame == EmptyFrame || (frame.Envelope? && frame.kind !in {"ack", "message"})) ==>
              r == Continue(st, [])
  {
    if ctxDone then Stop(Canceled)
    else
      match frame
      case ReadFailed(ClosedLocally) => Stop(Canceled)
      case ReadFailed(EndOfStream) => Stop(PeerClosed)
      case ReadFailed(OtherFailure) => Stop(ReadError)
      case EmptyFrame => Continue(st, [])
      case Undecodable => Stop(DecodeError)
      case Envelope(kind, id, topic, data) =>
        if kind == "ack" then
          (if ParseInt64(id).None? then Stop(AckIdError) else Continue(st, []))
        else if kind == "message" then
          match DecodeTopic(topic)
          case None => Continue(st, [])
          case Some((market, channel)) =>
            var key := MessageKey(market, channel);
            var e := Lookup(st.local, key);
            match Consider(e, now)
            case None => Continue(st, [])
            case Some(stamped) =>
              match ProcessWs(idx, sizes, st.commit, market, e.commitName, channel, data, now, parse)
              case Failed(reason) => Stop(BadRecord(reason))
              case Done(c) => Continue(ReaderState(st.local[key := stamped], c.data), c.emitted)
        else Continue(st, [])
  }

  /** An acknowledgement of a subscription id, echoed back in decimal, is consumed without effect. */
  lemma AckOfSubscriptionId(idx: Index, sizes: CommitSizes, st: ReaderState, n: int, topic: string, data: Payload,
                            now: int, parse: Parser)
    requires ValidData(st.commit) && InInt64(n)
    ensures ReadStep(idx, sizes, st, Envelope("ack", FormatInt(n), topic, data), now, false, parse) == Continue(st, [])
  {
    ParseFormatRoundTrip(n);
  }

  /**
   * An acknowledgement stops the reader exactly when its id does not read
   * as an int64 decimal: the empty id, a bare sign, any other character and
   * an out-of-range value all stop it; every other acknowledgement is
   * consumed without effect.
   */
  lemma AckWithBadIdStops(idx: Index, sizes: CommitSizes, st: ReaderState, id: string, topic: string, data: Payload,
                          now: int, parse: Parser)
    requires ValidData(st.commit)
    ensures ReadStep(idx, sizes, st, Envelope("ack", id, topic, data), now, false, parse) ==
            (if ParseInt64(id).None? then Stop(AckIdError) else Continue(st, []))
    ensures !DecimalText(id) ==> ReadStep(idx, sizes, st, Envelope("ack", id, topic, data), now, false, parse) == Stop(AckIdError)
  {
  }

  /** A data message whose topic has no `:` is dropped and the reader goes on. */
  lemma MalformedTopicDropped(idx: Index, sizes: CommitSizes, st: ReaderState, id: string, topic: string,
                              data: Payload, now: int, parse: Parser)
    requires ValidData(st.commit) && Separator !in topic
    ensures ReadStep(idx, sizes, st, Envelope("message", id, topic, data), now, false, parse) == Continue(st, [])
  {
    DecodeDropsIff(topic);
  }

  /**
   * A data message whose topic decodes to (market, channel), whatever the
   * topic's prefix and whether or not the pair was subscribed: when the
   * throttle drops it nothing at all changes; when it is accepted, either
   * the payload is rejected and the reader stops with that reason, or
   * exactly that pair's entry in the private map is stamped with `now`, the
   * record is buffered as `ProcessWs` does it (pushed into the buffer of
   * every sink configured for the pair) and batches go only to those sinks.
   */
  lemma DataMessageStep(idx: Index, sizes: CommitSizes, st: ReaderState, id: string, topic: string, market: string,
                        channel: Channel, data: Payload, now: int, parse: Parser)
    requires ValidData(st.commit) && DecodeTopic(topic) == Some((market, channel))
    ensures var key := Key(market, channel.Name());
      var e := Lookup(st.local, key);
      var r := ReadStep(idx, sizes, st, Envelope("message", id, topic, data), now, false, parse);
      var p := ProcessWs(idx, sizes, st.commit, market, e.commitName, channel, data, now, parse);
      && (!Due(e, now) ==> r == Continue(st, []))
      && (Due(e, now) && p.Failed? ==> r == Stop(BadRecord(p.reason)))
      && (Due(e, now) && p.Done? ==>
            r == Continue(ReaderState(st.local[key := e.(lastUpdated := Some(now))], p.result.data), p.result.emitted))
      && (Due(e, now) ==> r.Continue? ==>
            forall i :: 0 <= i < |r.emitted| ==> r.emitted[i].sink in Lookup(idx.cfg, key).sinks)
  {
  }

  /**
   * The same for the topic the connector subscribed for a pair whose
   * market id holds no `:`: the message is handled under that very pair.
   */
  lemma SubscribedDataMessageStep(idx: Index, sizes: CommitSizes, st: ReaderState, id: string, market: string,
                                  channel: Channel, data: Payload, now: int, parse: Parser)
    requires ValidData(st.commit) && Separator !in market
    ensures var key := Key(market, channel.Name());
      var e := Lookup(st.local, key);
      var r := ReadStep(idx, sizes, st, Envelope("message", id, TopicFor(market, channel.Name()), data), now, false, parse);
      var p := ProcessWs(idx, sizes, st.commit, market, e.commitName, channel, data, now, parse);
      && (!Due(e, now) ==> r == Continue(st, []))
      && (Due(e, now) && p.Failed? ==> r == Stop(BadRecord(p.reason)))
      && (Due(e, now) && p.Done? ==>
            r == Continue(ReaderState(st.local[key := e.(lastUpdated := Some(now))], p.result.data), p.result.emitted))
      && (Due(e, now) ==> r.Continue? ==>
            forall i :: 0 <= i < |r.emitted| ==> r.emitted[i].sink in Lookup(idx.cfg, key).sinks)
  {
    TopicRoundTrip(market, channel);
    DataMessageStep(idx, sizes, st, id, TopicFor(market, channel.Name()), market, channel, data, now, parse);
  }

  /**
   * Whatever the frame, the reader only ever stamps entries of its private
   * map with the current time: every other field of every entry is kept.
   */
  lemma ReadStepOnlyStamps(idx: Index, sizes: CommitSizes, st: ReaderState, frame: Frame, now: int, ctxDone: bool,
                           parse: Parser, k: Key)
    requires ValidData(st.commit)
    ensures var r := ReadStep(idx, sizes, st, frame, now, ctxDone, parse);
      r.Continue? ==>
        var after := Lookup(r.state.local, k);
        after == Lookup(st.local, k).(lastUpdated := after.lastUpdated) &&
        (after.lastUpdated == Lookup(st.local, k).lastUpdated || after.lastUpdated == Some(now))
  {
  }
}
