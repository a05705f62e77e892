/**
 * The stream's keep-alive: the interval the venue advertises in its
 * bootstrap reply (milliseconds) is turned into whole seconds when the
 * welcome message arrives (`connectWs`), and the pinger ticks at 90% of it
 * (`pingWs`), sending a `ping` frame tagged with the current Unix second.
 * Go's integer conversions are written out: `uint64(int)` wraps modulo
 * 2^64 and `time.Duration` (an int64 nanosecond count) wraps modulo 2^64
 * in two's complement; `time.NewTicker` panics on a period that is not
 * positive.
 */
module KeepAlive {
  import opened Base
  import opened Decimal

  /** `uint64(x)` for a 64-bit signed `x`. */
  function ToUint64(x: int): (r: int)
    ensures 0 <= r < Uint64Modulus
    ensures 0 <= x < Uint64Modulus ==> r == x
    ensures (r - x) % Uint64Modulus == 0
    ensures Int64Min <= x < 0 ==> r == x + Uint64Modulus
  {
    x % Uint64Modulus
  }

  /** Two's-complement wrap-around of 64-bit signed arithmetic. */
  function WrapInt64(x: int): (r: int)
    ensures InInt64(r)
    ensures InInt64(x) ==> r == x
    ensures (r - x) % Uint64Modulus == 0
  {
    (x - Int64Min) % Uint64Modulus + Int64Min
  }

  /** What the first frame on a new stream turned out to be. */
  datatype FirstFrame = FirstReadFailed(closedLocally: bool, endOfStream: bool) | FirstEmpty | FirstUndecodable | FirstEnvelope(kind: string)

  /** Why the bootstrap of a stream failed. */
  datatype BootstrapError = BadBootstrapReply | Canceled | PeerClosed | ReadError | NotWelcomed | DecodeError

  datatype Bootstrap = Connected(pingIntervalSec: int) | BootstrapFailed(error: BootstrapError)

  /** The venue's success code in a bootstrap reply. */
  const SuccessCode: string := "200000"

  /** `uint64(pingInterval) / 1000`: the advertised interval in whole seconds. */
  function AdvertisedSeconds(ms: int): (r: int)
    ensures 0 <= r && r * 1000 <= ToUint64(ms) < (r + 1) * 1000
    ensures 0 <= ms < Uint64Modulus ==> r == ms / 1000
  {
    ToUint64(ms) / 1000
  }

  /**
   * The decision `connectWs` takes once the endpoint and token came back
   * and the stream is open: the reply must carry the success code and at
   * least one server, and the first frame must be a `welcome`; the ping
   * interval is taken from the first server.
   */
  function Handshake(code: string, serverIntervalsMs: seq<int>, first: FirstFrame): (r: Bootstrap)
    ensures r.Connected? <==> code == SuccessCode && |serverIntervalsMs| >= 1 && first == FirstEnvelope("welcome")
    ensures r.Connected? ==> r.pingIntervalSec == AdvertisedSeconds(serverIntervalsMs[0])
    ensures code == SuccessCode && |serverIntervalsMs| >= 1 && first.FirstReadFailed? ==>
              r == BootstrapFailed(if first.closedLocally then Canceled
                                   else if first.endOfStream then PeerClosed else ReadError)
  {
    if code != SuccessCode || |serverIntervalsMs| < 1 then BootstrapFailed(BadBootstrapReply)
    else
      match first
      case FirstReadFailed(closed, eof) =>
        BootstrapFailed(if closed then Canceled else if eof then PeerClosed else ReadError)
      case FirstEmpty => BootstrapFailed(NotWelcomed)
      case FirstUndecodable => BootstrapFailed(DecodeError)
      case FirstEnvelope(kind) =>
        if kind == "welcome" then Connected(AdvertisedSeconds(serverIntervalsMs[0])) else BootstrapFailed(NotWelcomed)
  }

  /** `wsPingIntSec * 90 / 100` on uint64: 90% of the interval, in whole seconds, rounded down. */
  function PingSeconds(sec: int): (r: int)
    requires 0 <= sec < Uint64Modulus
    ensures 0 <= r <= sec
    ensures sec * 90 < Uint64Modulus ==> r == sec * 90 / 100
    ensures sec * 90 < Uint64Modulus ==> r * 100 <= sec * 90 < (r + 1) * 100
  {
    ToUint64(sec * 90) / 100
  }

  /** The ticker `pingWs` asks for: a period in nanoseconds, or `None` where `time.NewTicker` panics. */
  function TickerFor(periodNs: int): (r: Option<int>)
    ensures r.Some? <==> periodNs > 0
    ensures r.Some? ==> r.value == periodNs
  {
    if periodNs > 0 then Some(periodNs) else None
  }

  /** The pinger's ticker as written: `time.Duration(interval) * time.Second` with interval = 90% of the whole seconds. */
  function PingTicker(ms: int): (r: Option<int>)
    ensures 0 <= ms < 2000 ==> r.None?
    ensures 2000 <= ms <= 10_000_000_000_000 ==> r.Some? && 0 < r.value <= ms * 1_000_000
  {
    var interval := PingSeconds(AdvertisedSeconds(ms));
    assert 0 <= ms <= 10_000_000_000_000 ==> AdvertisedSeconds(ms) == ms / 1000 && interval <= ms / 1000;
    TickerFor(WrapInt64(WrapInt64(interval) * NanosPerSecond))
  }

  /**
   * For an advertised interval of at least two seconds (and below about 317
   * years) the pinger ticks at 90% of the whole seconds, rounded down: a
   * positive period no longer than the advertised interval, so the ping is
   * never late.
   */
  lemma PingTickerNeverLate(ms: int)
    requires 2000 <= ms <= 10_000_000_000_000
    ensures PingTicker(ms).Some?
    ensures var p := PingTicker(ms).value;
      p == (ms / 1000) * 90 / 100 * NanosPerSecond && 0 < p <= ms * 1_000_000
  {
    var sec := AdvertisedSeconds(ms);
    assert sec == ms / 1000;
    assert sec * 90 < Uint64Modulus;
    var interval := PingSeconds(sec);
    assert 1 <= interval <= sec;
    assert interval * NanosPerSecond <= sec * 1000 * 1_000_000 <= ms * 1_000_000;
    assert InInt64(interval * NanosPerSecond);
  }

  /**
   * The venue's advertised interval below two seconds makes the period 0
   * and the pinger's `time.NewTicker` panic (here: 1500 ms gives 1 s,
   * whose 90% rounds down to 0).
   */
  lemma PingTickerPanicsBelowTwoSeconds(ms: int)
    requires 0 <= ms < 2000
    ensures PingTicker(ms) == None
  {
    assert AdvertisedSeconds(ms) <= 1;
  }

  /** Concrete instance: an advertised interval of 1500 ms. */
  lemma PingTickerPanicsAt1500()
    ensures PingTicker(1500) == None
  {
    PingTickerPanicsBelowTwoSeconds(1500);
  }

  /**
   * The intended pinger period: 90% of the advertised interval, kept in
   * milliseconds (`time.Duration(ms*90/100) * time.Millisecond`), so that
   * no rounding to whole seconds happens before the 90% is taken.
   */
  function CorrectedPingTicker(ms: int): (r: Option<int>)
    ensures 2 <= ms <= 10_000_000_000_000 ==> r.Some? && 0 < r.value < ms * 1_000_000
  {
    TickerFor(WrapInt64(WrapInt64(ms * 90 / 100) * 1_000_000))
  }

  /**
   * The corrected period is positive and strictly shorter than the
   * advertised interval for every interval of at least 2 ms, and it is
   * never shorter than the period as written.
   */
  lemma CorrectedPingTickerEarly(ms: int)
    requires 2 <= ms <= 10_000_000_000_000
    ensures CorrectedPingTicker(ms).Some?
    ensures var p := CorrectedPingTicker(ms).value;
      p == ms * 90 / 100 * 1_000_000 && 0 < p < ms * 1_000_000
    ensures ms >= 2000 ==> PingTicker(ms).value <= CorrectedPingTicker(ms).value
  {
    var m := ms * 90 / 100;
    assert 1 <= m < ms;
    assert InInt64(m * 1_000_000);
    if ms >= 2000 {
      PingTickerNeverLate(ms);
      var sec := ms / 1000;
      assert sec * 90 / 100 * 1000 <= sec * 1000 * 90 / 100 <= ms * 90 / 100;
    }
  }

  /** The keep-alive message `{"id": <Unix seconds>, "type": "ping"}`. */
  datatype Ping = Ping(id: string, kind: string)

  function PingFrame(unixSeconds: int): (r: Ping)
    ensures r.kind == "ping"
  {
    Ping(FormatInt(unixSeconds), "ping")
  }

  /**
   * The id of a ping reads back as the second it was sent in, and pings
   * sent in different seconds carry different ids.
   */
  lemma PingIdRoundTrip(a: int, b: int)
    requires InInt64(a) && InInt64(b)
    ensures ParseInt64(PingFrame(a).id) == Some(a)
    ensures PingFrame(a).id == PingFrame(b).id <==> a == b
  {
    ParseFormatRoundTrip(a);
    if FormatInt(a) == FormatInt(b) {
      FormatIntInjective(a, b);
    }
  }

  /** How the pinger's write of a ping went. */
  datatype WriteOutcome = Written | WriteClosed | WriteFailed

  datatype PingError = PingCanceled | PingWriteError

  /** One tick of `pingWs`: the loop goes on after a write, a write on a closed stream counts as cancellation. */
  function PingTick(write: WriteOutcome): (r: Option<PingError>)
    ensures r.None? <==> write == Written
    ensures write == WriteClosed ==> r == Some(PingCanceled)
  {
    match write
    case Written => None
    case WriteClosed => Some(PingCanceled)
    case WriteFailed => Some(PingWriteError)
  }

  /** What wakes the pinger: its ticker fires and it writes a ping, or the context ends (`<-ctx.Done()`). */
  datatype PingEvent = PingDue(write: WriteOutcome) | ContextDone

  /** Why the pinger returns on `ev`, or `None` when it goes on. */
  function PingExit(ev: PingEvent): Option<PingError> {
    match ev
    case PingDue(write) => PingTick(write)
    case ContextDone => Some(PingCanceled)
  }

  /** The pinger over a run of events: how many pings were written, and why the loop ended (`None`: it is still running). */
  function PingRun(events: seq<PingEvent>): (nat, Option<PingError>)
    decreases |events|
  {
    if |events| == 0 then (0, None)
    else
      match PingExit(events[0])
      case Some(e) => (0, Some(e))
      case None => var rest := PingRun(events[1..]); (rest.0 + 1, rest.1)
  }

  /**
   * The pinger keeps writing until the first write that fails or the end of
   * the context, whichever comes first, and stops there with a write error
   * or cancellation; while every write succeeds and the context lives it
   * keeps going.
   */
  lemma {:induction false} PingRunStopsAtFirstExit(events: seq<PingEvent>)
    decreases |events|
    ensures var (sent, err) := PingRun(events);
      && sent <= |events|
      && (forall i :: 0 <= i < sent ==> events[i] == PingDue(Written))
      && (err.None? <==> sent == |events|)
      && (err.Some? ==> events[sent] != PingDue(Written))
      && (err.Some? && events[sent].ContextDone? ==> err == Some(PingCanceled))
      && (err.Some? && events[sent].PingDue? ==> err == PingTick(events[sent].write))
  {
    if |events| > 0 && events[0] == PingDue(Written) {
      PingRunStopsAtFirstExit(events[1..]);
    }
  }
}
