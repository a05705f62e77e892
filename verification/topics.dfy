/**
 * Websocket topic strings: how the subscriber names a (market, channel) pair
 * (`subWsChannel`) and how the stream reader recovers the pair from the topic
 * of a data message (the `"message"` branch of `readWs`).
 */
module Topics {
  import opened Base

  /** The two channel kinds the stream reader recognises. */
  datatype Channel = Ticker | Trade {
    /** The configuration name of the channel. */
    function Name(): string {
      match this
      case Ticker => "ticker"
      case Trade => "trade"
    }
  }

  const Separator: char := ':'
  const TickerPrefix: string := "/market/ticker"
  const TradePrefix: string := "/market/match"

  /** `strings.Split(s, string(sep))`: the fields between occurrences of `sep`. */
  function Split(s: string, sep: char): (fields: seq<string>)
    ensures |fields| >= 1
  {
    if |s| == 0 then [""]
    else
      var rest := Split(s[1..], sep);
      if s[0] == sep then [""] + rest else [[s[0]] + rest[0]] + rest[1..]
  }

  /** `strings.Join(fields, string(sep))`. */
  function Join(fields: seq<string>, sep: char): string
    requires |fields| >= 1
  {
    if |fields| == 1 then fields[0] else fields[0] + [sep] + Join(fields[1..], sep)
  }

  lemma {:induction false} SplitFieldsFree(s: string, sep: char)
    ensures forall i :: 0 <= i < |Split(s, sep)| ==> sep !in Split(s, sep)[i]
  {
    if |s| > 0 {
      SplitFieldsFree(s[1..], sep);
    }
  }

  lemma {:induction false} JoinSplit(s: string, sep: char)
    ensures Join(Split(s, sep), sep) == s
  {
    if |s| > 0 {
      var rest := Split(s[1..], sep);
      JoinSplit(s[1..], sep);
      if s[0] == sep {
        assert s == [sep] + s[1..];
      } else if |rest| == 1 {
        assert s == [s[0]] + s[1..];
      } else {
        assert rest == [rest[0]] + rest[1..];
        assert s == [s[0]] + s[1..];
      }
    }
  }

  lemma {:induction false} SplitJoin(fields: seq<string>, sep: char)
    requires |fields| >= 1
    requires forall i :: 0 <= i < |fields| ==> sep !in fields[i]
    ensures Split(Join(fields, sep), sep) == fields
  {
    if |fields| == 1 {
      SplitNoSeparator(fields[0], sep);
    } else {
      SplitJoin(fields[1..], sep);
      SplitAfterField(fields[0], Join(fields[1..], sep), sep);
    }
  }

  lemma {:induction false} SplitNoSeparator(s: string, sep: char)
    requires sep !in s
    ensures Split(s, sep) == [s]
  {
    if |s| > 0 {
      assert sep !in s[1..] && s[0] != sep;
      SplitNoSeparator(s[1..], sep);
      assert [s[0]] + s[1..] == s;
    }
  }

  /** Splitting a separator-free field, a separator and a tail. */
  lemma {:induction false} SplitAfterField(a: string, b: string, sep: char)
    requires sep !in a
    ensures Split(a + [sep] + b, sep) == [a] + Split(b, sep)
  {
    if |a| == 0 {
      assert a + [sep] + b == [sep] + b;
      assert ([sep] + b)[1..] == b;
    } else {
      SplitAfterField(a[1..], b, sep);
      assert (a + [sep] + b)[1..] == a[1..] + [sep] + b;
      assert [a[0]] + a[1..] == a;
    }
  }

  /** A string splits into one field exactly when it holds no separator. */
  lemma {:induction false} SplitSingleIff(s: string, sep: char)
    ensures |Split(s, sep)| == 1 <==> sep !in s
  {
    if |s| > 0 {
      SplitSingleIff(s[1..], sep);
      assert s == [s[0]] + s[1..];
    }
  }

  /**
   * The topic `subWsChannel` sends for a configured channel name: ticker and
   * trade get the venue's namespace prefix joined to the market id, any other
   * name is sent unchanged.
   */
  function TopicFor(market: string, channel: string): string
  {
    if channel == Ticker.Name() then TickerPrefix + [Separator] + market
    else if channel == Trade.Name() then TradePrefix + [Separator] + market
    else channel
  }

  /** A subscription request frame `{id, type, topic, privateChannel, response}`. */
  datatype SubRequest = SubRequest(id: int, kind: string, topic: string, privateChannel: bool, response: bool)

  /** `subWsChannel`: the subscription request for one configured channel (marshalling and the write are not modelled). */
  function SubscribeRequest(market: string, channel: string, id: int): SubRequest
  {
    SubRequest(id, "subscribe", TopicFor(market, channel), false, true)
  }

  /**
   * Topic decoding in `readWs`: a topic with fewer than two `:`-separated
   * fields is dropped; otherwise the market is the second field and the
   * channel is ticker when the first field is the ticker namespace and trade
   * for every other first field.
   */
  function DecodeTopic(topic: string): (r: Option<(string, Channel)>)
  {
    var fields := Split(topic, Separator);
    if |fields| < 2 then None
    else Some((fields[1], if fields[0] == TickerPrefix then Ticker else Trade))
  }

  /** Only topics without any separator are dropped. */
  lemma DecodeDropsIff(topic: string)
    ensures DecodeTopic(topic).None? <==> Separator !in topic
  {
    SplitSingleIff(topic, Separator);
  }

  /** Splitting a string with at least two fields: first field, separator, the rest joined back. */
  lemma SplitHead(s: string, sep: char)
    requires |Split(s, sep)| >= 2
    ensures s == Split(s, sep)[0] + [sep] + Join(Split(s, sep)[1..], sep)
  {
    JoinSplit(s, sep);
  }

  /** The decoded channel is ticker exactly when the topic starts with `/market/ticker:`. */
  lemma DecodeChannelIff(topic: string)
    requires DecodeTopic(topic).Some?
    ensures DecodeTopic(topic).value.1 == Ticker <==> TickerPrefix + [Separator] <= topic
  {
    var fields := Split(topic, Separator);
    SplitHead(topic, Separator);
    if TickerPrefix + [Separator] <= topic {
      var rest := topic[|TickerPrefix| + 1..];
      assert topic == TickerPrefix + [Separator] + rest;
      assert Separator !in TickerPrefix;
      SplitAfterField(TickerPrefix, rest, Separator);
    }
    if fields[0] == TickerPrefix {
      assert topic == TickerPrefix + [Separator] + Join(fields[1..], Separator);
    }
  }

  /** The fields after the first one, joined back, start with the second field. */
  lemma JoinTail(fields: seq<string>, sep: char)
    requires |fields| >= 2
    ensures var tail := Join(fields[1..], sep)[|fields[1]|..];
      Join(fields[1..], sep) == fields[1] + tail && (tail == [] || tail[0] == sep)
  {
    if |fields| > 2 {
      assert fields[1..][1..] == fields[2..];
    }
  }

  /**
   * `market` is the field right after the first `:` of `topic`: the topic is
   * `first:market`, optionally followed by more `:`-fields.
   */
  ghost predicate SecondField(topic: string, market: string) {
    && Separator !in market
    && exists first: string, tail: string {:trigger first + [Separator] + market + tail} ::
         topic == first + [Separator] + market + tail && Separator !in first &&
         (tail == [] || tail[0] == Separator)
  }

  /** The decoded market is the separator-free second field of the topic. */
  lemma DecodeMarketShape(topic: string)
    requires DecodeTopic(topic).Some?
    ensures SecondField(topic, DecodeTopic(topic).value.0)
  {
    var fields := Split(topic, Separator);
    SplitFieldsFree(topic, Separator);
    var first := fields[0];
    var market := fields[1];
    SplitHead(topic, Separator);
    JoinTail(fields, Separator);
    var joined := Join(fields[1..], Separator);
    var tail := joined[|fields[1]|..];
    assert topic == first + [Separator] + market + tail;
  }

  /**
   * Round trip: for a market id without `:`, decoding the topic subscribed
   * for a ticker or trade channel gives back the market and the channel.
   */
  lemma TopicRoundTrip(market: string, channel: Channel)
    requires Separator !in market
    ensures DecodeTopic(TopicFor(market, channel.Name())) == Some((market, channel))
  {
    var prefix := if channel == Ticker then TickerPrefix else TradePrefix;
    assert Separator !in prefix;
    SplitAfterField(prefix, market, Separator);
    SplitNoSeparator(market, Separator);
  }

  /** A market id holding `:` does not survive the round trip: only its part before the first `:` is recovered. */
  lemma TopicRoundTripNeedsPlainMarket(a: string, b: string, channel: Channel)
    requires Separator !in a
    ensures DecodeTopic(TopicFor(a + [Separator] + b, channel.Name())) == Some((a, channel))
  {
    var prefix := if channel == Ticker then TickerPrefix else TradePrefix;
    assert Separator !in prefix;
    assert prefix + [Separator] + (a + [Separator] + b) == prefix + [Separator] + ((a + [Separator]) + b);
    SplitAfterField(prefix, a + [Separator] + b, Separator);
    SplitAfterField(a, b, Separator);
  }

  /**
   * A topic the connector never subscribes to is still decoded: any prefix
   * other than the ticker's (`/market/level2`, say) makes the market after
   * the first `:` a trade market, and fields after a second `:` are ignored.
   */
  lemma ForeignTopicsDecoded(prefix: string, market: string, rest: string)
    requires Separator !in prefix && Separator !in market && prefix != TickerPrefix
    ensures DecodeTopic(prefix + [Separator] + market) == Some((market, Trade))
    ensures DecodeTopic(prefix + [Separator] + market + [Separator] + rest) == Some((market, Trade))
  {
    SplitAfterField(prefix, market, Separator);
    SplitNoSeparator(market, Separator);
    assert prefix + [Separator] + market + [Separator] + rest == prefix + [Separator] + (market + [Separator] + rest);
    SplitAfterField(prefix, market + [Separator] + rest, Separator);
    SplitAfterField(market, rest, Separator);
  }
}
