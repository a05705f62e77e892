/**
 * The canonical ticker and trade records and how the venue's push and poll
 * payloads are turned into them (`processWs`, `processREST`). Decimal
 * parsing of prices and sizes (`strconv.ParseFloat`) is a parameter.
 */
module Records {
  import opened Base
  import opened Decimal

  /** The venue tag every record carries. */
  const ExchangeName: string := "kucoin"

  /** `storage.Ticker`; the timestamp is nanoseconds since the Unix epoch, UTC. */
  datatype Ticker = Ticker(exchange: string, mktId: string, mktCommitName: string, price: real, timestamp: int)

  /** `storage.Trade`; the timestamp is nanoseconds since the Unix epoch, UTC. */
  datatype Trade = Trade(exchange: string, mktId: string, mktCommitName: string, tradeId: string, side: string,
                         size: real, price: real, timestamp: int)

  /**
   * The `time` field of a payload as the JSON decoder left it: a string
   * (push), a number (poll; carried here already converted to an integer
   * nanosecond count), or anything else (absent, null, object, ...).
   */
  datatype TimeField = TimeText(text: string) | TimeNumber(nanos: int) | TimeOther

  /** `respDataKucoin`. */
  datatype Payload = Payload(tradeId: string, side: string, size: string, price: string, time: TimeField)

  /** Why a payload could not be turned into a record. */
  datatype NormalizeError = BadSize | BadPrice | BadTime | TimeNotText | TimeNotNumber

  datatype Normalized<T> = Record(record: T) | Rejected(error: NormalizeError)

  /** The decimal parser, `strconv.ParseFloat(s, 64)`: `None` when it reports an error. */
  type Parser = string -> Option<real>

  /** A ticker from either source: the price is parsed, the timestamp is the time of receipt. */
  function MakeTicker(mktId: string, commitName: string, p: Payload, now: int, parse: Parser): (r: Normalized<Ticker>)
    ensures r.Rejected? <==> parse(p.price).None?
    ensures r.Record? ==> r.record == Ticker(ExchangeName, mktId, commitName, parse(p.price).value, now)
  {
    match parse(p.price)
    case None => Rejected(BadPrice)
    case Some(price) => Record(Ticker(ExchangeName, mktId, commitName, price, now))
  }

  /**
   * A pushed trade: size, then price, then the event time, which must be a
   * decimal string of nanoseconds (`strconv.ParseInt(t, 10, 64)`).
   */
  function PushTrade(mktId: string, commitName: string, p: Payload, parse: Parser): (r: Normalized<Trade>)
    ensures r.Record? <==>
              parse(p.size).Some? && parse(p.price).Some? && p.time.TimeText? && ParseInt64(p.time.text).Some?
    ensures r.Record? ==>
              r.record == Trade(ExchangeName, mktId, commitName, p.tradeId, p.side, parse(p.size).value,
                                parse(p.price).value, ParseInt64(p.time.text).value)
    ensures parse(p.size).None? ==> r == Rejected(BadSize)
  {
    match parse(p.size)
    case None => Rejected(BadSize)
    case Some(size) =>
      match parse(p.price)
      case None => Rejected(BadPrice)
      case Some(price) =>
        match p.time
        case TimeText(t) =>
          (match ParseInt64(t)
           case None => Rejected(BadTime)
           case Some(ts) => Record(Trade(ExchangeName, mktId, commitName, p.tradeId, p.side, size, price, ts)))
        case _ => Rejected(TimeNotText)
  }

  /**
   * A polled trade: size, then price, then the event time, which must be a
   * JSON number. The poll path leaves the trade id empty.
   */
  function PollTrade(mktId: string, commitName: string, p: Payload, parse: Parser): (r: Normalized<Trade>)
    ensures r.Record? <==> parse(p.size).Some? && parse(p.price).Some? && p.time.TimeNumber?
    ensures r.Record? ==>
              r.record == Trade(ExchangeName, mktId, commitName, "", p.side, parse(p.size).value,
                                parse(p.price).value, p.time.nanos)
  {
    match parse(p.size)
    case None => Rejected(BadSize)
    case Some(size) =>
      match parse(p.price)
      case None => Rejected(BadPrice)
      case Some(price) =>
        match p.time
        case TimeNumber(ts) => Record(Trade(ExchangeName, mktId, commitName, "", p.side, size, price, ts))
        case _ => Rejected(TimeNotNumber)
  }

  /**
   * The same event time sent as a decimal string on the stream and as a
   * number by the poll endpoint that converts to it exactly normalises to
   * the same instant.
   */
  lemma SameInstantBothSources(mktId: string, commitName: string, push: Payload, poll: Payload, n: int, parse: Parser)
    requires InInt64(n) && push.time == TimeText(FormatInt(n)) && poll.time == TimeNumber(n)
    requires parse(push.size).Some? && parse(push.price).Some?
    requires parse(poll.size).Some? && parse(poll.price).Some?
    ensures PushTrade(mktId, commitName, push, parse).Record? && PollTrade(mktId, commitName, poll, parse).Record?
    ensures PushTrade(mktId, commitName, push, parse).record.timestamp ==
            PollTrade(mktId, commitName, poll, parse).record.timestamp == n
  {
    ParseFormatRoundTrip(n);
  }
}
