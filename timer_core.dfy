/**
 * `static/js/timer-core.js`: a millisecond countdown over an injected
 * clock. The closure variables `startTs` and `pausedAt` become the fields
 * of `CoreTimer`; each call to `nowProvider()` becomes the parameter `now`
 * (integer milliseconds from a clock that does not go backwards).
 */
module TimerCore {
  import opened Wrappers
  import ClockText

  /**
   * `formatMs`: whole seconds `max(0, floor(ms / 1000))` as `MM:SS`.
   * Dafny's `/` rounds down for a positive divisor, like `Math.floor`.
   */
  function FormatMs(ms: int): (r: string)
    ensures ClockText.ParseClock(r) == Some(if ms < 0 then 0 else ms / 1000)
    ensures ms < 1000 ==> r == "00:00"
  {
    var totalSeconds := if ms / 1000 < 0 then 0 else ms / 1000;
    ClockText.FormatSecondsRoundTrip(totalSeconds);
    if totalSeconds == 0 then
      ClockText.FormatSecondsZero();
      ClockText.FormatSeconds(totalSeconds)
    else
      ClockText.FormatSeconds(totalSeconds)
  }

  function Max0(x: int): int {
    if x < 0 then 0 else x
  }

  /** The object `createTimer(plannedMs, nowProvider)` returns. */
  class CoreTimer {
    const plannedMs: int
    var startTs: Option<int>
    var pausedAt: Option<int>

    /** A pause is only recorded after a start, and not before it. */
    ghost predicate Valid()
      reads this
    {
      pausedAt.Some? ==> startTs.Some? && startTs.value <= pausedAt.value
    }

    /** `now` is not earlier than any time the timer recorded. */
    predicate ClockOk(now: int)
      reads this
    {
      && (startTs.Some? ==> startTs.value <= now)
      && (pausedAt.Some? ==> pausedAt.value <= now)
    }

    /**
     * `getRemaining`: `plannedMs` before a start; otherwise what is left
     * of `plannedMs` at `now`, or at the pause instant while paused.
     */
    function GetRemaining(now: int): (r: int)
      reads this
      requires Valid() && ClockOk(now)
      ensures startTs.None? ==> r == plannedMs
      ensures startTs.Some? ==> 0 <= r <= Max0(plannedMs)
      ensures startTs.Some? && pausedAt.Some? ==> r == Max0(plannedMs - (pausedAt.value - startTs.value))
    {
      if startTs.None? then plannedMs
      else
        var at := if pausedAt.Some? then pausedAt.value else now;
        Max0(plannedMs - (at - startTs.value))
    }

    constructor (plannedMs: int)
      ensures Valid() && this.plannedMs == plannedMs
      ensures startTs == None && pausedAt == None
    {
      this.plannedMs := plannedMs;
      startTs := None;
      pausedAt := None;
    }

    /**
     * `start`: begins counting when not yet started; after a pause it
     * moves the start forward by the length of the pause, so the countdown
     * resumes from the frozen value; while running it changes nothing.
     */
    method Start(now: int)
      requires Valid() && ClockOk(now)
      modifies this
      ensures Valid() && ClockOk(now)
      ensures startTs.Some? && pausedAt == None
      ensures old(startTs) == None ==> startTs == Some(now)
      ensures old(startTs).Some? && old(pausedAt) == None ==> startTs == old(startTs)
      ensures old(pausedAt).Some? ==>
        startTs == Some(old(startTs).value + (now - old(pausedAt).value))
      ensures GetRemaining(now) == if old(startTs) == None then Max0(plannedMs) else old(GetRemaining(now))
    {
      if startTs == None {
        startTs := Some(now);
      }
      if pausedAt != None {
        var pausedDuration := now - pausedAt.value;
        startTs := Some(startTs.value + pausedDuration);
        pausedAt := None;
      }
    }

    /** `pause`: records the pause instant; a no-op when not started or already paused. */
    method Pause(now: int)
      requires Valid() && ClockOk(now)
      modifies this
      ensures Valid() && ClockOk(now)
      ensures startTs == old(startTs)
      ensures old(startTs).Some? && old(pausedAt).None? ==> pausedAt == Some(now)
      ensures old(startTs).None? || old(pausedAt).Some? ==> pausedAt == old(pausedAt)
      ensures GetRemaining(now) == old(GetRemaining(now))
    {
      if startTs == None || pausedAt != None {
        return;
      }
      pausedAt := Some(now);
    }

    /** `reset`: forgets the start and the pause. */
    method Reset(now: int)
      modifies this
      ensures Valid() && ClockOk(now)
      ensures startTs == None && pausedAt == None
      ensures GetRemaining(now) == plannedMs
    {
      startTs := None;
      pausedAt := None;
    }
  }

  /** While paused, the remaining time does not depend on the clock. */
  lemma PausedIsFrozen(t: CoreTimer, a: int, b: int)
    requires t.Valid() && t.ClockOk(a) && t.ClockOk(b) && t.pausedAt.Some?
    ensures t.GetRemaining(a) == t.GetRemaining(b)
  {
  }

  /** The remaining time never grows while the clock advances. */
  lemma RemainingNonIncreasing(t: CoreTimer, a: int, b: int)
    requires t.Valid() && t.ClockOk(a) && a <= b
    ensures t.GetRemaining(b) <= t.GetRemaining(a)
  {
  }

  /**
   * Start at `t0`, read at `t1`, pause at `t1`, read at `t2`, resume at
   * `t2`, read at `t3`, reset: the pause freezes the reading and the resumed
   * countdown loses only the running time `(t1 - t0) + (t3 - t2)`.
   */
  method PauseResumeScenario(plannedMs: int, t0: int, t1: int, t2: int, t3: int)
    returns (running: int, paused: int, resumed: int, reset: int)
    requires t0 <= t1 <= t2 <= t3
    ensures running == Max0(plannedMs - (t1 - t0))
    ensures paused == running
    ensures resumed == Max0(plannedMs - (t1 - t0) - (t3 - t2))
    ensures reset == plannedMs
  {
    var t := new CoreTimer(plannedMs);
    t.Start(t0);
    running := t.GetRemaining(t1);
    t.Pause(t1);
    paused := t.GetRemaining(t2);
    t.Start(t2);
    resumed := t.GetRemaining(t3);
    t.Reset(t3);
    reset := t.GetRemaining(t3);
  }
}
