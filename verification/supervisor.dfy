/**
 * The outer retry loop of `StartKucoin`: after every connection attempt it
 * decides whether to stop or to wait the configured gap and start a fresh
 * attempt. Time is an integer count of nanoseconds on a monotonic clock.
 */
module Supervisor {
  import opened Base

  /** `config.Retry`: maximum retry count (0 = never retry), gap between attempts and reset window, in seconds. */
  datatype RetryPolicy = RetryPolicy(number: int, gapSec: int, resetSec: int)

  /** The retry counter and the time it was last updated (`retryCount`, `lastRetryTime`). */
  datatype RetryState = RetryState(count: int, lastRetry: int)

  /** How one attempt (`newKucoin`) ended: returned nil, or returned an error. */
  datatype AttemptEnd = Returned | Failed

  /** What the supervisor does next. */
  datatype Decision =
    | Rerun(state: RetryState)      // start a new attempt with this retry state
    | GiveUpNoRetry                 // retrying disabled: "not able to connect"
    | GiveUpExhausted(retries: int) // "... even after <retries> retry"
    | Cancelled                     // the application context ended during the gap

  /** The state before the first attempt, started at time `now`. */
  function Start(now: int): RetryState {
    RetryState(0, now)
  }

  /** The failure came less than `resetSec` seconds after the previous one. */
  predicate WithinWindow(p: RetryPolicy, st: RetryState, now: int) {
    SaturateDuration(now - st.lastRetry) < p.resetSec * NanosPerSecond
  }

  /** The counter after a failure at `now`: incremented while the window is off or still open, else back to 1. */
  function NextCount(p: RetryPolicy, st: RetryState, now: int): int {
    if p.resetSec == 0 || WithinWindow(p, st, now) then st.count + 1 else 1
  }

  /**
   * One turn of the loop. A nil return starts the next attempt at once with
   * the counter untouched; an error stops for good when retrying is disabled,
   * otherwise updates the counter, stops when it exceeds the limit, and else
   * waits the gap, which the application context may cut short.
   */
  function AfterAttempt(p: RetryPolicy, st: RetryState, end: AttemptEnd, now: int, gapCancelled: bool): (d: Decision)
    ensures end == Returned ==> d == Rerun(st)
    ensures end == Failed && p.number == 0 ==> d == GiveUpNoRetry
    ensures end == Failed && p.number != 0 && NextCount(p, st, now) > p.number ==> d == GiveUpExhausted(p.number)
    ensures end == Failed && d.Rerun? ==>
              d.state == RetryState(NextCount(p, st, now), now) && d.state.count <= p.number &&
              !gapCancelled
    ensures end == Failed && p.number != 0 && NextCount(p, st, now) <= p.number ==>
              d == (if gapCancelled then Cancelled else Rerun(RetryState(NextCount(p, st, now), now)))
  {
    match end
    case Returned => Rerun(st)
    case Failed =>
      if p.number == 0 then GiveUpNoRetry
      else
        var count := NextCount(p, st, now);
        if count > p.number then GiveUpExhausted(p.number)
        else if gapCancelled then Cancelled
        else Rerun(RetryState(count, now))
  }

  /** A run of attempts that all fail at the given times, no gap being cut short. */
  function RunFailures(p: RetryPolicy, st: RetryState, times: seq<int>): Decision
    decreases |times|
  {
    if |times| == 0 then Rerun(st)
    else
      match AfterAttempt(p, st, Failed, times[0], false)
      case Rerun(next) => RunFailures(p, next, times[1..])
      case d => d
  }

  /** The first failure of a fresh supervisor always sets the counter to 1. */
  lemma FirstFailureCountsOne(p: RetryPolicy, start: int, now: int)
    ensures NextCount(p, Start(start), now) == 1
    ensures p.number >= 1 ==> AfterAttempt(p, Start(start), Failed, now, false) == Rerun(RetryState(1, now))
  {
  }

  /** A counter that is never negative stays in 1..number across every retry. */
  lemma CounterBounds(p: RetryPolicy, st: RetryState, now: int, gapCancelled: bool)
    requires st.count >= 0
    ensures NextCount(p, st, now) >= 1
    ensures AfterAttempt(p, st, Failed, now, gapCancelled).Rerun? ==>
              1 <= AfterAttempt(p, st, Failed, now, gapCancelled).state.count <= p.number
  {
  }

  /** A failure that comes at least `resetSec` seconds after the previous one restarts the count at 1. */
  lemma WindowResets(p: RetryPolicy, st: RetryState, now: int)
    requires p.resetSec > 0 && InInt64(now - st.lastRetry) && now - st.lastRetry >= p.resetSec * NanosPerSecond
    ensures NextCount(p, st, now) == 1
  {
  }

  /** With retrying disabled, the very first failure ends the loop, whatever came before. */
  lemma NoRetryStopsAtFirstFailure(p: RetryPolicy, st: RetryState, times: seq<int>)
    requires p.number == 0 && |times| >= 1
    ensures RunFailures(p, st, times) == GiveUpNoRetry
  {
  }

  /** With the reset window off, k consecutive failures add exactly k to the counter while it stays within the limit. */
  lemma {:induction false} NoResetCounts(p: RetryPolicy, st: RetryState, times: seq<int>)
    requires p.resetSec == 0 && p.number >= 1
    requires 0 <= st.count && st.count + |times| <= p.number
    decreases |times|
    ensures RunFailures(p, st, times) ==
              Rerun(RetryState(st.count + |times|, if |times| == 0 then st.lastRetry else times[|times| - 1]))
  {
    if |times| > 0 {
      var next := RetryState(st.count + 1, times[0]);
      assert AfterAttempt(p, st, Failed, times[0], false) == Rerun(next);
      NoResetCounts(p, next, times[1..]);
    }
  }

  /** With the reset window off, the failure that pushes the counter past the limit ends the loop. */
  lemma {:induction false} NoResetGivesUp(p: RetryPolicy, st: RetryState, times: seq<int>)
    requires p.resetSec == 0 && p.number >= 1
    requires 0 <= st.count <= p.number && |times| == p.number - st.count + 1
    decreases |times|
    ensures RunFailures(p, st, times) == GiveUpExhausted(p.number)
  {
    if st.count < p.number {
      var next := RetryState(st.count + 1, times[0]);
      assert AfterAttempt(p, st, Failed, times[0], false) == Rerun(next);
      NoResetGivesUp(p, next, times[1..]);
    }
  }

  /**
   * With the reset window off, a fresh supervisor survives `number`
   * consecutive failures and gives up on failure number + 1.
   */
  lemma NoResetStopsOnNumberPlusOne(p: RetryPolicy, start: int, times: seq<int>)
    requires p.resetSec == 0 && p.number >= 1
    requires |times| == p.number + 1
    ensures RunFailures(p, Start(start), times[..p.number]).Rerun?
    ensures RunFailures(p, Start(start), times) == GiveUpExhausted(p.number)
  {
    NoResetCounts(p, Start(start), times[..p.number]);
    NoResetGivesUp(p, Start(start), times);
  }

  /**
   * Worked example: limit 3, reset window 60 s, failures 0, 10, 20 and 70 s
   * after start: the counter goes 1, 2, 3 and the fourth failure (50 s after
   * the third, inside the window) exhausts the retries; a failure 100 s
   * after the second one instead restarts the count at 1.
   */
  lemma WindowExample()
    ensures var p := RetryPolicy(3, 5, 60);
      var s := NanosPerSecond;
      && RunFailures(p, Start(0), [0, 10 * s, 20 * s]) == Rerun(RetryState(3, 20 * s))
      && RunFailures(p, Start(0), [0, 10 * s, 20 * s, 70 * s]) == GiveUpExhausted(3)
      && RunFailures(p, Start(0), [0, 10 * s, 110 * s]) == Rerun(RetryState(1, 110 * s))
  {
    var p := RetryPolicy(3, 5, 60);
    var s := NanosPerSecond;
    // the supervisor's states after the failures at 0, 10 and 20 s
    var s1, s2, s3 := RetryState(1, 0), RetryState(2, 10 * s), RetryState(3, 20 * s);
    assert AfterAttempt(p, Start(0), Failed, 0, false) == Rerun(s1);
    assert AfterAttempt(p, s1, Failed, 10 * s, false) == Rerun(s2);
    assert AfterAttempt(p, s2, Failed, 20 * s, false) == Rerun(s3);
    assert AfterAttempt(p, s3, Failed, 70 * s, false) == GiveUpExhausted(3);
    assert AfterAttempt(p, s2, Failed, 110 * s, false) == Rerun(RetryState(1, 110 * s));
    assert RunFailures(p, s3, [70 * s]) == GiveUpExhausted(3);
    assert [20 * s, 70 * s][1..] == [70 * s];
    assert RunFailures(p, s2, [20 * s, 70 * s]) == GiveUpExhausted(3);
    assert [10 * s, 20 * s, 70 * s][1..] == [20 * s, 70 * s];
    assert RunFailures(p, s1, [10 * s, 20 * s, 70 * s]) == GiveUpExhausted(3);
    assert [0, 10 * s, 20 * s, 70 * s][1..] == [10 * s, 20 * s, 70 * s];
    assert RunFailures(p, s3, []) == Rerun(s3);
    assert [20 * s][1..] == [];
    assert RunFailures(p, s2, [20 * s]) == Rerun(s3);
    assert [10 * s, 20 * s][1..] == [20 * s];
    assert RunFailures(p, s1, [10 * s, 20 * s]) == Rerun(s3);
    assert [0, 10 * s, 20 * s][1..] == [10 * s, 20 * s];
    assert RunFailures(p, RetryState(1, 110 * s), []) == Rerun(RetryState(1, 110 * s));
    assert [110 * s][1..] == [];
    assert RunFailures(p, s2, [110 * s]) == Rerun(RetryState(1, 110 * s));
    assert [10 * s, 110 * s][1..] == [110 * s];
    assert RunFailures(p, s1, [10 * s, 110 * s]) == Rerun(RetryState(1, 110 * s));
    assert [0, 10 * s, 110 * s][1..] == [10 * s, 110 * s];
  }
}
