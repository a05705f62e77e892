/**
 * The per-subscription update throttle of `readWs`: a pushed update is
 * considered only when the subscription's interval is 0 or at least that
 * many seconds have passed since its last considered update. Times are
 * nanosecond counts of a monotonic clock.
 */
module Throttle {
  import opened Base
  import opened Config

  /**
   * `time.Since(last)` in nanoseconds: Go's zero time (`None`) lies so far in
   * the past that the difference saturates at the largest duration.
   */
  function Since(now: int, last: Option<int>): (d: int)
    ensures InInt64(d)
    ensures last.None? ==> d == Int64Max
    ensures last.Some? && InInt64(now - last.value) ==> d == now - last.value
  {
    match last
    case None => Int64Max
    case Some(t) => SaturateDuration(now - t)
  }

  /** `wsConsiderIntSec == 0 || time.Since(wsLastUpdated).Seconds() >= float64(wsConsiderIntSec)`. */
  predicate Due(e: Entry, now: int) {
    e.considerIntSec == 0 || Since(now, e.lastUpdated) >= e.considerIntSec * NanosPerSecond
  }

  /** The entry after an update at `now`: stamped when the update is accepted, absent when it is dropped. */
  function Consider(e: Entry, now: int): (r: Option<Entry>)
    ensures r.Some? <==> (e.considerIntSec == 0 || Since(now, e.lastUpdated) >= e.considerIntSec * NanosPerSecond)
    ensures r.Some? ==> r.value == e.(lastUpdated := Some(now))
  {
    if Due(e, now) then Some(e.(lastUpdated := Some(now))) else None
  }

  /**
   * An accepted update opens a window of T seconds: a later update is
   * dropped while less than T seconds have passed since it, and accepted
   * from exactly T seconds on.
   */
  lemma AcceptOpensWindow(e: Entry, now: int, t: int)
    requires e.considerIntSec > 0 && Consider(e, now).Some? && InInt64(t - now)
    ensures Consider(Consider(e, now).value, t).Some? <==> t >= now + e.considerIntSec * NanosPerSecond
  {
  }

  /** A run of updates for one subscription: the entry afterwards and the times of the accepted updates. */
  datatype RunResult = RunResult(entry: Entry, accepted: seq<int>)

  function Run(e: Entry, times: seq<int>): RunResult
    decreases |times|
  {
    if |times| == 0 then RunResult(e, [])
    else
      match Consider(e, times[0])
      case Some(next) => var rest := Run(next, times[1..]); RunResult(rest.entry, [times[0]] + rest.accepted)
      case None => Run(e, times[1..])
  }

  /** With interval 0 every update is accepted. */
  lemma {:induction false} ZeroIntervalAcceptsAll(e: Entry, times: seq<int>)
    requires e.considerIntSec == 0
    decreases |times|
    ensures Run(e, times).accepted == times
  {
    if |times| > 0 {
      ZeroIntervalAcceptsAll(e.(lastUpdated := Some(times[0])), times[1..]);
    }
  }

  /**
   * Only acceptance moves the timestamp: afterwards the entry is the one
   * before with its last-updated time set to the last accepted update, or
   * unchanged when every update was dropped.
   */
  lemma {:induction false} RunStampsLastAccepted(e: Entry, times: seq<int>)
    decreases |times|
    ensures var r := Run(e, times);
      r.entry == (if |r.accepted| == 0 then e else e.(lastUpdated := Some(r.accepted[|r.accepted| - 1])))
  {
    if |times| > 0 {
      match Consider(e, times[0])
      case Some(next) => RunStampsLastAccepted(next, times[1..]);
      case None => RunStampsLastAccepted(e, times[1..]);
    }
  }

  /**
   * With a positive interval T, accepted updates are at least T seconds
   * apart, and the first one is at least T seconds after the update that
   * was last accepted before the run.
   */
  lemma {:induction false} RunSpacing(e: Entry, times: seq<int>)
    requires e.considerIntSec > 0
    decreases |times|
    ensures var acc := Run(e, times).accepted;
      (forall k :: 0 <= k < |acc| - 1 ==> acc[k + 1] - acc[k] >= e.considerIntSec * NanosPerSecond) &&
      (e.lastUpdated.Some? && |acc| > 0 ==> acc[0] - e.lastUpdated.value >= e.considerIntSec * NanosPerSecond)
  {
    if |times| > 0 {
      match Consider(e, times[0])
      case Some(next) =>
        RunSpacing(next, times[1..]);
        var rest := Run(next, times[1..]).accepted;
        var acc := Run(e, times).accepted;
        assert acc == [times[0]] + rest;
        var gap := e.considerIntSec * NanosPerSecond;
        assert e.lastUpdated.Some? ==> times[0] - e.lastUpdated.value >= Since(times[0], e.lastUpdated) >= gap;
        assert next.lastUpdated == Some(times[0]) && next.considerIntSec == e.considerIntSec;
        assert |rest| > 0 ==> acc[1] - acc[0] >= gap;
        forall k | 1 <= k < |acc| - 1
          ensures acc[k + 1] - acc[k] >= e.considerIntSec * NanosPerSecond
        {
          assert acc[k + 1] == rest[k] && acc[k] == rest[k - 1];
        }
      case None =>
        RunSpacing(e, times[1..]);
        assert Run(e, times) == Run(e, times[1..]);
    }
  }

  /**
   * A subscription that never accepted an update accepts the first one
   * exactly when its interval is at most the largest duration (9223372036 s).
   */
  lemma FirstUpdateAccepted(e: Entry, now: int)
    requires e.lastUpdated.None?
    ensures e.considerIntSec * NanosPerSecond <= Int64Max ==> Consider(e, now) == Some(e.(lastUpdated := Some(now)))
    ensures Consider(e, now).Some? <==> e.considerIntSec * NanosPerSecond <= Int64Max
  {
  }

  /**
   * A subscription whose interval exceeds the largest duration and that
   * never accepted an update drops every update for good: `time.Since` of
   * the zero time saturates below the interval, and nothing ever stamps it.
   */
  lemma {:induction false} HugeIntervalDropsAll(e: Entry, times: seq<int>)
    requires e.lastUpdated.None? && e.considerIntSec * NanosPerSecond > Int64Max
    ensures Run(e, times) == RunResult(e, [])
    decreases |times|
  {
    if |times| > 0 {
      FirstUpdateAccepted(e, times[0]);
      HugeIntervalDropsAll(e, times[1..]);
    }
  }

  /**
   * Worked example with a 5-second interval and updates at 0, 2, 5, 6 and
   * 10 s: the updates at 0, 5 and 10 s are accepted. The one at 10 s is
   * only 4 s after the dropped one at 6 s, so a drop does not restart the
   * interval.
   */
  lemma DropExample(e: Entry)
    requires e.considerIntSec == 5 && e.lastUpdated.None?
    ensures var s := NanosPerSecond;
      Run(e, [0, 2 * s, 5 * s, 6 * s, 10 * s]).accepted == [0, 5 * s, 10 * s]
  {
    var s := NanosPerSecond;
    var e0 := e.(lastUpdated := Some(0));
    var e5 := e.(lastUpdated := Some(5 * s));
    var e10 := e.(lastUpdated := Some(10 * s));
    assert Run(e10, []).accepted == [];
    assert [10 * s][1..] == [];
    assert Run(e5, [10 * s]).accepted == [10 * s];
    assert [6 * s, 10 * s][1..] == [10 * s];
    assert Run(e5, [6 * s, 10 * s]).accepted == [10 * s];
    assert [5 * s, 6 * s, 10 * s][1..] == [6 * s, 10 * s];
    assert Run(e0, [5 * s, 6 * s, 10 * s]).accepted == [5 * s, 10 * s];
    assert [2 * s, 5 * s, 6 * s, 10 * s][1..] == [5 * s, 6 * s, 10 * s];
    assert Run(e0, [2 * s, 5 * s, 6 * s, 10 * s]).accepted == [5 * s, 10 * s];
    assert [0, 2 * s, 5 * s, 6 * s, 10 * s][1..] == [2 * s, 5 * s, 6 * s, 10 * s];
  }
}
