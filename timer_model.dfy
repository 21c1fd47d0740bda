/**
 * The wall-clock interval timer of `pomodoro/models/timer.py`: a four-status
 * machine whose stored `remaining` is a checkpoint; while running, the live
 * value is derived from the seconds elapsed since the recorded start.
 * `time.time()` becomes the parameter `now` (seconds since the Unix epoch,
 * so always positive, never going backwards past the recorded start).
 */
module TimerModel {
  import opened Wrappers

  datatype Status = Stopped | Running | Paused | Completed

  /** The dictionary that `get_state` returns. */
  datatype Snapshot = Snapshot(duration: int, remaining: int, status: Status)

  /** Twenty-five minutes, the default duration. */
  const DefaultDuration: int := 25 * 60

  /**
   * `max(0, int(remaining - elapsed))`. Python's `int` truncates toward
   * zero while `Floor` rounds down; the two differ only below zero, where
   * `max(0, .)` maps both to 0.
   */
  function Countdown(remaining: int, elapsed: real): (r: int)
    ensures r >= 0
    ensures r == 0 <==> remaining as real - elapsed < 1.0
    ensures r > 0 ==> r as real <= remaining as real - elapsed < r as real + 1.0
    ensures elapsed >= 0.0 && remaining >= 0 ==> r <= remaining
  {
    var left := (remaining as real - elapsed).Floor;
    if left < 0 then 0 else left
  }

  class Timer {
    var duration: int
    var remaining: int
    var status: Status
    var startTs: Option<real>

    /**
     * The invariant the four Timer operations keep: a start time is held
     * exactly while running, and it is a reading of the epoch clock;
     * stored remaining is non-negative unless it still is the (negative)
     * duration the timer was created or reset with.
     */
    ghost predicate Valid()
      reads this
    {
      && (startTs.Some? <==> status == Running)
      && (startTs.Some? ==> startTs.value > 0.0)
      && (remaining >= 0 || remaining == duration)
    }

    /** Besides `Valid`, a completed timer holds 0 seconds. */
    ghost predicate Settled()
      reads this
    {
      Valid() && (status == Completed ==> remaining == 0)
    }

    /** `now` is not earlier than the recorded start. */
    predicate ClockOk(now: real)
      reads this
    {
      startTs.Some? ==> startTs.value <= now
    }

    /** The remaining seconds `get_state` reports at time `now`. */
    function Live(now: real): (r: int)
      reads this
      requires Valid() && ClockOk(now)
      ensures status == Running ==> 0 <= r <= remaining || remaining < 0
      ensures status == Running ==> r >= 0
      ensures status != Running ==> r == remaining
    {
      if status == Running && startTs.Some? then Countdown(remaining, now - startTs.value)
      else remaining
    }

    /** `Timer(duration)`: `__post_init__` copies the duration into remaining. */
    constructor (duration: int)
      ensures Settled()
      ensures this.duration == duration && remaining == duration
      ensures status == Stopped && startTs == None
    {
      this.duration := duration;
      remaining := duration;
      status := Stopped;
      startTs := None;
    }

    /** `start`: records the start time unless already running. */
    method Start(now: real)
      requires Valid() && now > 0.0
      modifies this
      ensures Valid() && (old(Settled()) ==> Settled())
      ensures status == Running
      ensures startTs == if old(status) == Running then old(startTs) else Some(now)
      ensures remaining == old(remaining) && duration == old(duration)
    {
      if status != Running {
        startTs := Some(now);
        status := Running;
      }
    }

    /**
     * `pause`: while running, checkpoints the live value and clears the
     * start time; in any other status nothing changes.
     */
    method Pause(now: real)
      requires Valid() && ClockOk(now)
      modifies this
      ensures Valid() && (old(Settled()) ==> Settled())
      ensures old(status) == Running ==>
        && remaining == Countdown(old(remaining), now - old(startTs).value)
        && remaining == old(Live(now))
        && startTs == None && status == Paused
      ensures old(status) != Running ==>
        remaining == old(remaining) && status == old(status) && startTs == old(startTs)
      ensures duration == old(duration)
    {
      if status == Running {
        // `self._start_ts or time.time()`: the start time is a positive
        // epoch reading, so the fallback is never taken.
        var since := if startTs.Some? && startTs.value != 0.0 then startTs.value else now;
        remaining := Countdown(remaining, now - since);
        startTs := None;
        status := Paused;
      }
    }

    /** `reset(duration=None)`: back to a stopped, full timer. */
    method Reset(newDuration: Option<int>)
      requires Valid()
      modifies this
      ensures Settled()
      ensures duration == if newDuration.Some? then newDuration.value else old(duration)
      ensures remaining == duration && status == Stopped && startTs == None
    {
      if newDuration.Some? {
        duration := newDuration.value;
      }
      remaining := duration;
      status := Stopped;
      startTs := None;
    }

    /**
     * `get_state`: reports the live value. A running timer whose live
     * value reached 0 becomes completed on this read; otherwise nothing
     * changes.
     */
    method GetState(now: real) returns (snap: Snapshot)
      requires Valid() && ClockOk(now)
      modifies this
      ensures Valid() && (old(Settled()) ==> Settled())
      ensures snap == Snapshot(duration, old(Live(now)), status)
      ensures duration == old(duration)
      ensures old(status) == Running && old(Live(now)) == 0 ==>
        status == Completed && remaining == 0 && startTs == None
      ensures !(old(status) == Running && old(Live(now)) == 0) ==>
        remaining == old(remaining) && status == old(status) && startTs == old(startTs)
    {
      var live := remaining;
      if status == Running && startTs.Some? {
        live := Countdown(remaining, now - startTs.value);
      }
      if live == 0 && status == Running {
        status := Completed;
        startTs := None;
        remaining := 0;
      }
      snap := Snapshot(duration, live, status);
    }
  }

  /** Stored remaining is never negative once the duration is not. */
  lemma NonNegativeRemaining(t: Timer)
    requires t.Valid() && t.duration >= 0
    ensures t.remaining >= 0
  {
  }

  /** A fresh timer reports its whole duration, stopped. */
  method FreshTimerState(d: int, now: real) returns (snap: Snapshot)
    requires now > 0.0
    ensures snap == Snapshot(d, d, Stopped)
  {
    var t := new Timer(d);
    snap := t.GetState(now);
  }

  /**
   * Started at `t0` and queried `k` whole seconds later (`k < d`), a timer
   * is still running and reports `d - k`.
   */
  method CountdownScenario(d: int, t0: real, k: nat) returns (snap: Snapshot)
    requires t0 > 0.0 && k < d
    ensures snap == Snapshot(d, d - k, Running)
  {
    var t := new Timer(d);
    t.Start(t0);
    snap := t.GetState(t0 + k as real);
  }

  /**
   * Queried once more than `d - 1` seconds have passed, a running timer is
   * completed with 0 left, and a later read gives the same snapshot.
   * Truncation makes this happen up to one second before `d` have passed.
   */
  method CompletionScenario(d: int, t0: real, t1: real, t2: real) returns (first: Snapshot, second: Snapshot)
    requires 0.0 < t0 <= t1 <= t2 && t0 + (d - 1) as real < t1
    ensures first == Snapshot(d, 0, Completed)
    ensures second == first
  {
    var t := new Timer(d);
    t.Start(t0);
    first := t.GetState(t1);
    second := t.GetState(t2);
  }

  /**
   * Pausing freezes the live value: however long the pause lasts, the
   * paused timer reports it, and after a new start the countdown goes on
   * from it and not from the duration.
   */
  method PauseResumeScenario(d: int, t0: real, t1: real, t2: real, t3: real)
    returns (paused: Snapshot, resumed: Snapshot)
    requires 0.0 < t0 <= t1 <= t2 <= t3
    ensures paused == Snapshot(d, Countdown(d, t1 - t0), Paused)
    ensures resumed.remaining == Countdown(paused.remaining, t3 - t2)
    ensures resumed.remaining <= paused.remaining
  {
    var t := new Timer(d);
    t.Start(t0);
    t.Pause(t1);
    paused := t.GetState(t2);
    t.Start(t2);
    resumed := t.GetState(t3);
  }
}
