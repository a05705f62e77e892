# KuCoin market-data ingestion — a Dafny model

This project models the KuCoin connector of a crypto market-data collector (`internal/exchange/kucoin.go`). The connector takes the configured markets and their channels. Each channel is a ticker or a trade channel, read either over the venue's websocket ("websocket" connector) or by polling its REST API ("rest" connector). The connector turns every venue message into a canonical ticker or trade record. It buffers records per storage sink (terminal, MySQL, Elasticsearch) and hands a full buffer to the sink.

Modelled, one Dafny module per concern:

- **Supervisor** (`StartKucoin`): the retry loop around a connection attempt. It counts failures, resets the counter after the reset window, and gives up when retrying is disabled or the limit is passed.
- **Config** (`cfgLookup`): the configuration index. It maps a (market, channel) key to the subscription id, the commit name, the throttle interval and the sinks. It also keeps the id → (market, channel) back-map and the set of sinks whose handles are created.
- **Subscriber** (`newKucoin`): the start-up loop, as the list of actions it performs.
  - The stream is opened once, on the first push channel.
  - One subscription request is sent per push channel, with a 20-second pause after every 89 requests.
  - The REST client is set up once, on the first poll channel, and one poller is started per poll channel.
- **Topics** (`subWsChannel`, the topic split of `readWs`): the topic a subscription names and how a data message's topic is decoded back into (market, channel).
- **KeepAlive** (`connectWs`, `pingWs`): the bootstrap checks, the conversion of the advertised ping interval from milliseconds to whole seconds, the pinger's 90% period, and the ping frame.
- **Reader** (`readWs`, `processWs`): one turn of the stream reader.
  - Read-error mapping; empty, pong, ack and unknown frames.
  - The topic split and the per-subscription throttle on the reader's private copy of the index.
  - Record building.
- **Throttle** (the `wsConsiderIntSec` check of `readWs`): acceptance of an update and its timestamp.
- **Records** (`processWs`, `processREST`): building ticker and trade records from push and poll payloads, and the ordering of their error checks.
- **Batching**, **FanOut** and **Commit** (the buffer-and-flush blocks of `processWs` and `processREST`):
  - Each sink has a buffer per record kind.
  - A buffer is handed off whole when its counter reaches the sink's commit size.
  - Sinks are visited in the order terminal, MySQL, Elasticsearch.
- **Poller** (`processREST`): one tick of a ticker poller or a trade poller. The first failure halts the poller.

Time is an integer count of nanoseconds. Go's fixed-width arithmetic is written out where it matters: `uint64` conversion, `time.Duration` wrap-around and `time.Since` saturation. Decimal float parsing (`strconv.ParseFloat`) is a parameter of type `string -> Option<real>`.

### Behaviour of the code worth noting

- A retry reset window of 0 means "never reset": the counter is incremented (`kucoin.go:39`). A failure exactly `ResetSec` seconds after the previous one already restarts the count at 1, because the counter is incremented only while the elapsed time is below `ResetSec` (`kucoin.go:39-43`).
- Every error ending an attempt is counted, including a cancellation of the application context. An attempt that returns nil is started again at once and leaves the counter as it is.
- In the stream reader:
  - Frames of an unknown type are ignored, not treated as errors.
  - A data message whose topic's first field is not `/market/ticker` is decoded as a trade, whatever that field is.
  - A subscription whose throttle interval exceeds 9223372036 s never accepts an update: `time.Since` of the zero time saturates at about 9223372036.85 s, which is below the interval (`kucoin.go:510`).
  - An acknowledgement whose id is not a decimal integer stops the reader.
- A polled ticker is stamped with the time of receipt. Polled trades carry no trade id.
- Building the index never fails.

## Model

| member | source | states |
|---|---|---|
| Base.SaturateDuration | internal/exchange/kucoin.go:39 | `time.Since` gives the exact difference when it fits an int64 nanosecond count, and the nearest bound otherwise |
| Supervisor.AfterAttempt | internal/exchange/kucoin.go:32-59 | after a nil return the next attempt starts with the state unchanged; after an error: with retrying disabled it stops with "not able to connect"; a counter past the limit stops with "even after N retry"; otherwise it waits the gap (or stops on cancellation) and records the new count and the failure time, which never exceeds the limit |
| Supervisor.FirstFailureCountsOne | internal/exchange/kucoin.go:29-47 | the first failure of a fresh supervisor sets the counter to 1 and, with a limit of at least 1, retries |
| Supervisor.CounterBounds | internal/exchange/kucoin.go:39-47 | the counter after a failure is at least 1, and a retry happens only with the counter in 1..Number |
| Supervisor.WindowResets | internal/exchange/kucoin.go:39-43 | a failure at least ResetSec seconds after the previous one restarts the count at 1 |
| Supervisor.NoRetryStopsAtFirstFailure | internal/exchange/kucoin.go:36-38 | with Number = 0 the first failure ends the loop, whatever the state |
| Supervisor.NoResetCounts | internal/exchange/kucoin.go:39-48 | with the reset window off, k consecutive failures within the limit add exactly k to the counter and record the last failure time |
| Supervisor.NoResetGivesUp | internal/exchange/kucoin.go:39-47 | with the reset window off, the failure that takes the counter past Number gives up |
| Supervisor.NoResetStopsOnNumberPlusOne | internal/exchange/kucoin.go:29-47 | a fresh supervisor without reset window survives Number failures and gives up on failure Number + 1 |
| Supervisor.WindowExample | internal/exchange/kucoin.go:39-47 | limit 3, window 60 s: failures at 0, 10, 20 s count 1, 2, 3; a fourth at 70 s gives up; a failure 100 s after the previous one restarts at 1 |
| Decimal.ParseInt64 | internal/exchange/kucoin.go:618-622 | `strconv.ParseInt(s, 10, 64)`: only an optional `+` or `-` followed by at least one decimal digit can succeed; unsigned or `+` digits give their decimal value when it is at most 2^63 - 1; `-` digits give the negated value when it is at least -2^63; anything out of range fails |
| Decimal.FormatNat | internal/exchange/kucoin.go:386 | the decimal digits of a non-negative number have no leading zero |
| Decimal.FormatInt | internal/exchange/kucoin.go:386 | `strconv.FormatInt(n, 10)` is non-empty and starts with `-` exactly for negative n |
| Decimal.DigitsOfFormatNat | internal/exchange/kucoin.go:386 | the digits written for n have value n |
| Decimal.ParseFormatRoundTrip | internal/exchange/kucoin.go:386 | what `FormatInt` writes for an int64, `ParseInt` reads back unchanged |
| Decimal.FormatIntInjective | internal/exchange/kucoin.go:386 | two int64 values with the same decimal text are equal |
| Topics.Split | internal/exchange/kucoin.go:495 | `strings.Split` always yields at least one field |
| Topics.JoinSplit | internal/exchange/kucoin.go:495 | joining the fields of a split with the separator gives back the string |
| Topics.SplitJoin | internal/exchange/kucoin.go:495 | splitting a join of separator-free fields gives back the fields |
| Topics.SplitSingleIff | internal/exchange/kucoin.go:495-498 | a string yields a single field exactly when it holds no `:` |
| Topics.DecodeDropsIff | internal/exchange/kucoin.go:495-498 | a data message's topic is dropped exactly when it holds no `:` |
| Topics.DecodeChannelIff | internal/exchange/kucoin.go:499-503 | a decoded topic is a ticker exactly when it starts with `/market/ticker:`; every other topic is taken as a trade |
| Topics.DecodeMarketShape | internal/exchange/kucoin.go:495-508 | the decoded market is the separator-free field right after the first `:` |
| Topics.TopicRoundTrip | internal/exchange/kucoin.go:409-416 | for a market id without `:`, the topic subscribed for a ticker or trade channel decodes back to that market and channel |
| Topics.TopicRoundTripNeedsPlainMarket | internal/exchange/kucoin.go:409-416 | a market id holding `:` decodes to its part before the first `:` only |
| Topics.ForeignTopicsDecoded | internal/exchange/kucoin.go:495-503 | topics the connector never subscribes to are still decoded: for any `:`-free prefix other than `/market/ticker` (such as `/market/level2`), the `:`-free field after the first `:` is taken as a trade market, and fields after a second `:` are ignored |
| Config.SinksNamed | internal/exchange/kucoin.go:261-285 | a sink flag is set exactly when the sink's name is in the channel's storages; other names are ignored |
| Config.SlotsEnumerate | internal/exchange/kucoin.go:250-257 | the walk visits every configured (market, channel) pair and nothing else |
| Config.ChannelIdsBackMap | internal/exchange/kucoin.go:287-289 | ids run 1..n over the pairs in walk order, and id k maps back to the k-th pair's market and channel |
| Config.CfgKeys | internal/exchange/kucoin.go:258-293 | the index holds exactly the keys of the configured pairs |
| Config.CfgLastOccurrenceWins | internal/exchange/kucoin.go:258-293 | for a key configured twice, the later pair's settings and id are kept |
| Config.CfgIdsConsistent | internal/exchange/kucoin.go:287-293 | the id stored for every key is in range and maps back to that key |
| Config.HandlesNamed | internal/exchange/kucoin.go:261-285 | a sink's handle and queues are created exactly when some pair names the sink |
| Config.BuildIndexEntry | internal/exchange/kucoin.go:244-297 | for the last pair with a key: the id is the pair's position; the commit name defaults to the market id; the sink flags match the storages; the throttle interval is copied; no update has been seen yet |
| Subscriber.WsActionsCount | internal/exchange/kucoin.go:143-210 | a push pair opens the stream only if it is the first, sends one request, and pauses only when it completes a run of 89 |
| Subscriber.RestActionsCount | internal/exchange/kucoin.go:211-232 | a poll pair sets up the REST client only if it is the first, and starts one poller |
| Subscriber.PlanStepPaced | internal/exchange/kucoin.go:140-233 | the loop body keeps the invariant linking the counters to the actions taken |
| Subscriber.PlanSlotsPaced | internal/exchange/kucoin.go:140-233 | the loop invariant holds after every prefix, and the counters count the push and poll pairs |
| Subscriber.PausesAfterSubscriptions | internal/exchange/kucoin.go:193-209 | after n push pairs, n requests were sent, n / 89 pauses were taken, and the threshold holds n mod 89 |
| Subscriber.TwoHundredChannelsPauseTwice | internal/exchange/kucoin.go:200-209 | 200 push channels cause exactly two pauses |
| Subscriber.PlanRequests | internal/exchange/kucoin.go:191-195 | every request sent is a non-private `subscribe` frame for a push pair, asking for a response, carrying the index's id for the pair and the topic built for its channel |
| Subscriber.WsActionsRequests | internal/exchange/kucoin.go:191-198 | a push pair sends exactly its own subscription request |
| Subscriber.RestActionsRequests | internal/exchange/kucoin.go:211-232 | a poll pair sends no subscription request |
| Subscriber.PlanSendsEveryRequest | internal/exchange/kucoin.go:140-198 | the requests sent are exactly one per push pair, in configuration order, each carrying the index's id for its pair and the topic built for its channel; there are as many as there are push pairs |
| KeepAlive.ToUint64 | internal/exchange/kucoin.go:358 | `uint64(x)` is in range and agrees with x modulo 2^64: non-negative values are kept and a negative int64 x becomes x + 2^64 |
| KeepAlive.WrapInt64 | internal/exchange/kucoin.go:380 | int64 wrap-around is in range, keeps in-range values and agrees modulo 2^64 |
| KeepAlive.AdvertisedSeconds | internal/exchange/kucoin.go:358 | the advertised interval is converted to whole seconds, rounded down, after the `uint64` conversion |
| KeepAlive.Handshake | internal/exchange/kucoin.go:320-361 | the stream is up exactly when the reply has code "200000", at least one server, and a `welcome` first frame; the interval comes from the first server; first-read failures map to canceled, closed by the venue, or a plain read error |
| KeepAlive.PingSeconds | internal/exchange/kucoin.go:379 | `sec * 90 / 100` on `uint64`: when the product does not wrap, exactly 90% of sec rounded down; never more than sec |
| KeepAlive.PingTicker | internal/exchange/kucoin.go:379-380 | the pinger's ticker as written: none (a panic) for an advertised interval under 2000 ms; from 2 s up to 1e13 ms a positive period no longer than the advertised interval |
| KeepAlive.PingTickerNeverLate | internal/exchange/kucoin.go:379-380 | for an advertised interval from 2 s up to 1e13 ms, the pinger ticks with a positive period, no longer than the advertised interval |
| KeepAlive.PingTickerPanicsBelowTwoSeconds | internal/exchange/kucoin.go:379-380 | an advertised interval under 2000 ms gives period 0 |
| KeepAlive.PingTickerPanicsAt1500 | internal/exchange/kucoin.go:379-380 | at 1500 ms there is no ticker |
| KeepAlive.CorrectedPingTicker | internal/exchange/kucoin.go:379-380 | the intended ticker, 90% taken in milliseconds: a positive period strictly shorter than the advertised interval for every interval from 2 ms up to 1e13 ms |
| KeepAlive.CorrectedPingTickerEarly | internal/exchange/kucoin.go:379-380 | taking 90% in milliseconds gives a positive period strictly below the advertised interval for every interval of at least 2 ms, and never below the period as written |
| KeepAlive.PingFrame | internal/exchange/kucoin.go:385-388 | the keep-alive frame has type `ping` |
| KeepAlive.PingIdRoundTrip | internal/exchange/kucoin.go:386 | a ping's id reads back as the second it was sent in; pings from different seconds have different ids |
| KeepAlive.PingRunStopsAtFirstExit | internal/exchange/kucoin.go:382-406 | over a run of ticks and context events the pinger writes while writes succeed and the context lives; it stops at the first failed write with that write's error, or at the end of the context with cancellation, and at nothing else |
| Throttle.Since | internal/exchange/kucoin.go:510 | time since the last accepted update is the exact gap when it fits, and the largest duration when no update was ever accepted |
| Throttle.AcceptOpensWindow | internal/exchange/kucoin.go:510-517 | once an update at `now` is accepted with a positive interval T, a later update is accepted exactly when it comes at least T seconds after `now`: every update inside the window is dropped and the one at its end is accepted |
| Throttle.ZeroIntervalAcceptsAll | internal/exchange/kucoin.go:510 | with interval 0 every update is accepted |
| Throttle.RunStampsLastAccepted | internal/exchange/kucoin.go:510-517 | after a run of updates the entry carries the time of the last accepted one, or is unchanged if none was accepted |
| Throttle.RunSpacing | internal/exchange/kucoin.go:510-517 | accepted updates are at least the interval apart, counting from the last one accepted before the run |
| Throttle.FirstUpdateAccepted | internal/exchange/kucoin.go:510-514 | a subscription that has not yet accepted an update accepts the first one exactly when its interval is at most the largest duration, 9223372036 s |
| Throttle.HugeIntervalDropsAll | internal/exchange/kucoin.go:510-517 | a subscription with an interval above 9223372036 s that has not yet accepted an update drops every update for good |
| Throttle.DropExample | internal/exchange/kucoin.go:510-517 | with 5 s and updates at 0, 2, 5, 6, 10 s, those at 0, 5 and 10 s are accepted; a dropped update does not restart the interval |
| Records.PushTrade | internal/exchange/kucoin.go:594-627 | a pushed trade is built exactly when size, price and a decimal-string time parse; a bad size is reported first; the timestamp is the nanosecond value |
| Records.PollTrade | internal/exchange/kucoin.go:923-950 | a polled trade is built exactly when size and price parse and the time is a number; its trade id is empty |
| Records.SameInstantBothSources | internal/exchange/kucoin.go:616-622 | an event time n sent as decimal text on the stream, and as a poll number that converts to n exactly, gives the same timestamp n from both sources |
| Batching.Empty | internal/exchange/kucoin.go:449-456 | a fresh buffer is empty and its counter agrees |
| Batching.Push | internal/exchange/kucoin.go:555-566 | a record is appended; when the counter reaches the commit size, the whole buffer is handed off in arrival order and a fresh one starts; a commit size of 0 never hands off |
| Batching.PushKeepsAll | internal/exchange/kucoin.go:555-566 | one push loses nothing: the batch handed off followed by the new buffer is the old buffer plus the record |
| Batching.PushAllPreservesOrder | internal/exchange/kucoin.go:555-566 | over a run of records the batches followed by the leftover are the old buffer followed by the records: nothing is lost, duplicated or reordered |
| Batching.PushAllBatchSizes | internal/exchange/kucoin.go:555-566 | for a commit size of at least 1 every batch has exactly that size, the buffer stays below it, and #batches × size + leftover = records seen |
| Batching.FillThenFlush | internal/exchange/kucoin.go:555-566 | records that do not fill the buffer are all kept; the one that fills it hands everything off as one batch |
| Batching.PushAllNeverFlushes | internal/exchange/kucoin.go:555-566 | a commit size of 0 keeps every record buffered forever |
| Batching.FullBatch | internal/exchange/kucoin.go:555-566 | exactly `size` records into a fresh buffer give one batch of all of them |
| FanOut.Put | internal/exchange/kucoin.go:553-592 | updating one sink's buffer leaves the other two untouched |
| FanOut.NoBuffers | internal/exchange/kucoin.go:449-456 | a producer starts with three empty buffers |
| FanOut.Deliver | internal/exchange/kucoin.go:555-566 | a sink's part of the fan-out pushes into its buffer only when the sink is configured, and touches no other sink |
| FanOut.FanPerSink | internal/exchange/kucoin.go:553-592 | for each sink, one record is pushed to its buffer if configured and otherwise that sink gets nothing |
| FanOut.BatchesForAppend | internal/exchange/kucoin.go:553-592 | a sink's hand-offs of two runs are those of the first run, then those of the second |
| FanOut.FanAllProjection | internal/exchange/kucoin.go:553-592 | seen from one sink, fanning out a stream is single-buffer batching of the records configured for that sink |
| FanOut.FanAllDelivers | internal/exchange/kucoin.go:553-592 | each sink receives exactly its configured records, in arrival order, split into batches of its commit size |
| FanOut.SingleRecordRouting | internal/exchange/kucoin.go:553-592 | a record ends up exactly once with every configured sink and never with another |
| Commit.NewCommitData | internal/exchange/kucoin.go:449-456 | fresh commit buffers are valid |
| Commit.TickersToHandoffs | internal/exchange/kucoin.go:558-565 | the ticker batches a sink is handed are exactly its full buffers, in order |
| Commit.TradesToHandoffs | internal/exchange/kucoin.go:634-641 | the trade batches a sink is handed are exactly its full buffers, in order |
| Commit.CommitTicker | internal/exchange/kucoin.go:553-592 | buffering a ticker leaves the trade buffers untouched; every sink configured for the market's ticker channel gets the ticker appended to its buffer and is handed exactly the batch that push flushes; every other sink keeps its buffer and is handed nothing |
| Commit.CommitTrade | internal/exchange/kucoin.go:629-669 | buffering a trade leaves the ticker buffers untouched; every sink configured for the market's trade channel gets the trade appended to its buffer and is handed exactly the batch that push flushes; every other sink keeps its buffer and is handed nothing |
| Commit.HandoffSinks | internal/exchange/kucoin.go:553-592 | a sink that is handed no batch appears nowhere among the hand-offs |
| Reader.StartReader | internal/exchange/kucoin.go:443-456 | the reader starts with a copy of the index's map and empty buffers |
| Reader.ProcessWs | internal/exchange/kucoin.go:537-672 | a ticker message fails exactly when its price does not parse; a trade message fails exactly when its record is rejected, with that rejection's reason; an accepted record is appended to the buffer of every sink configured for its pair, which is handed exactly the batch that push flushes, while other sinks and the other record kind are untouched |
| Reader.ReadStep | internal/exchange/kucoin.go:458-529 | an ended context stops with cancellation; read failures map to canceled, closed by the venue, or a read error; an undecodable frame stops the reader; empty frames and unknown types change nothing |
| Reader.AckOfSubscriptionId | internal/exchange/kucoin.go:486-493 | an acknowledgement echoing a subscription id is consumed without effect |
| Reader.AckWithBadIdStops | internal/exchange/kucoin.go:486-493 | an acknowledgement stops the reader exactly when `strconv.Atoi` rejects its id (empty, a bare sign, any non-digit, or out of int64 range), and is otherwise consumed without effect |
| Reader.MalformedTopicDropped | internal/exchange/kucoin.go:495-498 | a data message whose topic has no `:` is skipped |
| Reader.DataMessageStep | internal/exchange/kucoin.go:495-522 | for any topic that decodes to (market, channel), subscribed or not: a throttled update changes nothing; an accepted one whose record fails stops the reader with that reason; otherwise exactly that pair's private entry is stamped with the current time and the buffers and hand-offs are those of `processWs`, going only to the pair's sinks |
| Reader.SubscribedDataMessageStep | internal/exchange/kucoin.go:495-522 | the same for the topic subscribed for a pair whose market id holds no `:`: the message is handled under that very pair |
| Reader.ReadStepOnlyStamps | internal/exchange/kucoin.go:505-517 | the reader changes nothing in its private map except setting some last-update times to the current time |
| Poller.PollTicker | internal/exchange/kucoin.go:830-902 | a failed request or undecodable body halts the poller with nothing handed off; otherwise it goes on exactly when the price parses, buffering the receipt-stamped ticker for the pair's ticker sinks and leaving trades untouched |
| Poller.ScanTrades | internal/exchange/kucoin.go:921-950 | no more trades are accepted than items received |
| Poller.ScanTradesSpec | internal/exchange/kucoin.go:921-950 | the scan stops exactly at the first item that is not a valid trade and records why; every item before it is accepted as its trade; a reply of valid trades is accepted whole |
| Poller.CommitAll | internal/exchange/kucoin.go:953-994 | buffering a run of trades keeps the buffers valid and the ticker buffers untouched |
| Poller.PollTrades | internal/exchange/kucoin.go:903-994 | a failed request or undecodable body halts with nothing handed off; otherwise the tick is the scan of the items, buffered in order |
| Poller.BufferTrades | internal/exchange/kucoin.go:921-994 | the loop over the items equals the reference: the accepted trades are buffered in order, and the tick halts on the first invalid item, keeping the earlier hand-offs |
| Poller.ScanPrefix | internal/exchange/kucoin.go:921-950 | once the scan has stopped, later items do not change it |
| Poller.TradeHandoffsAppend | internal/exchange/kucoin.go:953-994 | emissions of two runs of hand-offs are those of the first run, then those of the second |
| Poller.CommitAllIsFanOut | internal/exchange/kucoin.go:953-994 | buffering a poll's trades one by one is the fan-out of the routed stream, so every fan-out property holds per sink |

## Left out

- Network and storage I/O are not modelled: the bootstrap HTTP request, the websocket dial and reads, the REST requests and their query parameters, and the sinks' commit calls. Their outcomes are parameters (`Frame`, `Reply`, `WriteOutcome`), or the batch handed to a sink is the model's output.
- Concurrency is not modelled. This covers the errgroup, `closeWsConnOnError`, and the six sink goroutines with their one-slot queues (`wsTickersToTerminal` … `wsTradesToES`). It also covers the race in which a send on a queue loses to the context ending, and commit errors of MySQL or Elasticsearch in the pollers. Each of these ends the attempt with an error; the model hands the batch off unconditionally.
- Clocks and sleeping are parameters. The current time is passed in. The retry gap and the 20-second pause are an action or a flag that says whether the context ended first. A stream ticker is stamped with the same instant the throttle used, where the code reads the clock twice.
- Supervisor.AfterAttempt: compares the elapsed time with `ResetSec` in integer nanoseconds, not as float seconds. It also does not model the panic of `time.NewTicker` for a retry gap of 0 or less (`kucoin.go:50`).
- Throttle.Consider: compares in integer nanoseconds rather than `Seconds()` as a float64, so float rounding of elapsed times above 2^53 ns is not modelled.
- Records.PollTrade: the poll endpoint's time is a JSON number decoded to float64 and truncated by `int64(t)`. The model takes the integer result (`TimeNumber(nanos)`) and leaves out the float rounding and the conversion of out-of-range floats.
- Records.SameInstantBothSources: the poll number is taken as the integer it converts to. A JSON number is decoded to float64, so a time above 2^53 ns is rounded to the nearest float64 before `int64(t)` (`kucoin.go:937-950`), and near current times float64 values lie 256 ns apart; the stream and poll timestamps of the same event can then differ by up to that rounding, which the model does not show.
- Records.MakeTicker: `strconv.ParseFloat` is a parameter. Its decimal grammar, rounding and the ±Inf results for overflow are not modelled.
- Subscriber.Plan: assumes every connection and write of the start-up succeeds. In the code a failure of `connectWs`, of the subscription write in `subWsChannel` or of `connectRest` (`kucoin.go:147-150`, `194-197`, `212-216`) ends the attempt before the later pairs are visited; the plan describes a start-up that runs to completion.
- Commit.NewCommitData: starts with empty buffers for any commit size. In the code `make([]T, 0, size)` panics for a negative `TickerCommitBuf` or `TradeCommitBuf` (`kucoin.go:450-455`, `787-792`); the same holds for Reader.StartReader and the pollers. Configuration validation, which would reject a negative size, is not part of this model, so a negative size behaves like 0 here.
- Poller.PollTicker: the REST poll period `time.Duration(interval) * time.Second` is not modelled. This includes the panic of `time.NewTicker` for an interval of 0 or less (`kucoin.go:823`): configuration validation, which would reject such an interval, is not part of this model.
- A poller configured for a channel other than "ticker" or "trade" builds no request and does nothing on each tick. This is not modelled.
- The debug log of an acknowledgement, which looks the id up in the back-map, has no effect and is left out. So are all other logs.
- JSON marshalling of the subscription and ping frames, and JSON decoding of envelopes, are not modelled: a frame is its decoded fields.
- The websocket connector (`connector.NewWebsocket`), the REST client (`connector.REST`), the storage packages and the configuration loader are not part of this model.

## Findings

| source | as written | input that shows it | evidently intended | confidence | as-written member | corrected member |
|---|---|---|---|---|---|---|
| internal/exchange/kucoin.go:379-380 | the ping interval is first rounded down to whole seconds (`kucoin.go:358`), then 90% of it is taken in whole seconds; for an advertised interval under 2000 ms the period is 0 and `time.NewTicker` panics | advertised ping interval 1500 ms: 1 s, 90% of which rounds down to 0 | a ping period of 90% of the advertised interval, positive for every advertised interval from 2 ms, e.g. computed in milliseconds | not executed | KeepAlive.PingTickerPanicsAt1500 | KeepAlive.CorrectedPingTicker |
