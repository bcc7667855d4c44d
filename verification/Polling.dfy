/** The bounded polling loop that every asynchronous cloud command is waited for with. */
module Polling {
  /** One evaluation of the polled function: reached, failed, or not yet. */
  datatype Poll = Stop | Fail | Again

  datatype WaitResult = Reached | PollFailed | TimedOut

  const WAIT_STATUS_TIMEOUT: nat := 180
  const WAIT_STATUS_INTERVAL: nat := 3

  /**
   `poll(n)` is the outcome of the n-th evaluation of the polled function, and
   `ticksServed` is how many ticker events the select serves before it serves the timer;
   both are chosen by the environment. The first decisive poll decides.
   */
  method WaitForSpecificOrError(poll: nat -> Poll, ticksServed: nat) returns (r: WaitResult, polls: nat)
    ensures 1 <= polls <= 1 + ticksServed
    ensures forall n :: 0 <= n < polls - 1 ==> poll(n) == Again
    ensures r == Reached <==> poll(polls - 1) == Stop
    ensures r == PollFailed <==> poll(polls - 1) == Fail
    ensures r == TimedOut ==> polls == 1 + ticksServed
  {
    polls := 1;
    match poll(0) {
      case Fail => return PollFailed, polls;
      case Stop => return Reached, polls;
      case Again =>
    }
    var ticks := ticksServed;
    while ticks > 0
      invariant 1 <= polls && polls + ticks == 1 + ticksServed
      invariant forall n :: 0 <= n < polls ==> poll(n) == Again
    {
      ticks := ticks - 1;
      polls := polls + 1;
      match poll(polls - 1) {
        case Fail => return PollFailed, polls;
        case Stop => return Reached, polls;
        case Again =>
      }
    }
    return TimedOut, polls;
  }

  /** When the loop last became idle before serving tick number `k` (counted from zero). */
  function IdleFrom(servedAt: seq<nat>, duration: nat -> nat, k: nat): nat
    requires k <= |servedAt|
  {
    if k == 0 then 0 else servedAt[k - 1] + duration(k)
  }

  function Max(a: nat, b: nat): nat {
    if a < b then b else a
  }

  /** When the ticker emits tick number `k` (counted from zero). */
  function EmittedAt(interval: nat, k: nat): nat {
    if k == 0 then interval else EmittedAt(interval, k - 1) + interval
  }

  /**
   A timed schedule of the select. Time starts when the ticker and the timer do; poll
   number k + 1 answers tick number k and lasts `duration(k + 1)`. A tick is served as
   soon as it has been emitted and the loop is idle, and it can win only if the timer was
   not ready strictly earlier; on a tie either may win.
   */
  ghost predicate Schedule(servedAt: seq<nat>, timeout: nat, interval: nat, duration: nat -> nat) {
    forall k :: 0 <= k < |servedAt| ==>
      var idle := IdleFrom(servedAt, duration, k);
      && servedAt[k] == Max(idle, EmittedAt(interval, k))
      && servedAt[k] <= Max(idle, timeout)
  }

  lemma {:induction false} TicksOnTime(servedAt: seq<nat>, timeout: nat, interval: nat, duration: nat -> nat, k: nat)
    requires Schedule(servedAt, timeout, interval, duration) && k < |servedAt|
    requires forall n: nat :: duration(n) < interval
    ensures servedAt[k] == EmittedAt(interval, k) <= timeout
  {
    if k > 0 {
      TicksOnTime(servedAt, timeout, interval, duration, k - 1);
      assert IdleFrom(servedAt, duration, k) < EmittedAt(interval, k);
    } else {
      assert IdleFrom(servedAt, duration, k) == 0;
    }
  }

  lemma {:induction false} EmissionTime(interval: nat, k: nat)
    ensures EmittedAt(interval, k) == (k + 1) * interval
  {
    if k > 0 {
      EmissionTime(interval, k - 1);
    }
  }

  /**
   When each poll is shorter than the interval, the ticks served fit the timeout, so there
   are at most 1 + timeout / interval polls, and the timer is served less than one
   interval after it fires.
   */
  lemma PollBound(servedAt: seq<nat>, timeout: nat, interval: nat, duration: nat -> nat)
    requires Schedule(servedAt, timeout, interval, duration)
    requires 0 < interval && forall n: nat :: duration(n) < interval
    ensures |servedAt| * interval <= timeout
    ensures Max(IdleFrom(servedAt, duration, |servedAt|), timeout) < timeout + interval
  {
    var n := |servedAt|;
    if n > 0 {
      TicksOnTime(servedAt, timeout, interval, duration, n - 1);
      EmissionTime(interval, n - 1);
    }
  }

  /** With the driver's constants that is at most 61 polls a wait. */
  lemma StatusWaitPolls(servedAt: seq<nat>, duration: nat -> nat)
    requires Schedule(servedAt, WAIT_STATUS_TIMEOUT, WAIT_STATUS_INTERVAL, duration)
    requires forall n: nat :: duration(n) < WAIT_STATUS_INTERVAL
    ensures 1 + |servedAt| <= 61
  {
    PollBound(servedAt, WAIT_STATUS_TIMEOUT, WAIT_STATUS_INTERVAL, duration);
  }
}
