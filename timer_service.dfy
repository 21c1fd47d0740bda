/**
 * `pomodoro/services/timer_service.py`: a thin wrapper holding one Timer.
 * Each operation applies the Timer operation of the same name and then
 * answers with the Timer's `get_state` snapshot, read at the same `now`.
 */
module TimerServiceLayer {
  import opened Wrappers
  import opened TimerModel

  /** `int(seconds)` falling back to 0 when the conversion raises, then clamped at 0. */
  function RemainingFrom(seconds: Option<int>): (sec: int)
    ensures sec >= 0
    ensures seconds.None? ==> sec == 0
    ensures seconds.Some? && seconds.value >= 0 ==> sec == seconds.value
    ensures seconds.Some? && seconds.value < 0 ==> sec == 0
  {
    var sec := if seconds.Some? then seconds.value else 0;
    if sec < 0 then 0 else sec
  }

  class TimerService {
    const timer: Timer

    ghost predicate Valid()
      reads this, timer
    {
      timer.Valid()
    }

    /** `TimerService(timer=None)`: an injected timer is kept, otherwise a default one is made. */
    constructor (injected: Timer?)
      requires injected != null ==> injected.Valid()
      ensures Valid()
      ensures injected != null ==> timer == injected
      ensures injected == null ==> fresh(timer) && timer.Settled()
      ensures injected == null ==>
        timer.duration == DefaultDuration && timer.remaining == DefaultDuration
        && timer.status == Stopped && timer.startTs == None
    {
      if injected != null {
        timer := injected;
      } else {
        timer := new Timer(DefaultDuration);
      }
    }

    method Start(now: real) returns (snap: Snapshot)
      requires Valid() && timer.ClockOk(now) && now > 0.0
      modifies timer
      ensures Valid() && timer.ClockOk(now)
      ensures timer.status == Running || timer.status == Completed
      ensures snap.status == timer.status && snap.duration == timer.duration == old(timer.duration)
      ensures old(timer.status) != Running ==>
        snap.remaining == (if old(timer.remaining) < 0 then 0 else old(timer.remaining))
      ensures old(timer.status) == Running ==> snap.remaining == old(timer.Live(now))
      ensures snap.remaining == 0 ==>
        timer.status == Completed && timer.remaining == 0 && timer.startTs == None
      ensures snap.remaining != 0 ==>
        timer.status == Running && timer.remaining == old(timer.remaining)
        && timer.startTs == if old(timer.status) == Running then old(timer.startTs) else Some(now)
    {
      timer.Start(now);
      snap := timer.GetState(now);
    }

    method Pause(now: real) returns (snap: Snapshot)
      requires Valid() && timer.ClockOk(now)
      modifies timer
      ensures Valid() && timer.ClockOk(now)
      ensures snap == Snapshot(timer.duration, timer.remaining, timer.status)
      ensures timer.duration == old(timer.duration)
      ensures old(timer.status) == Running ==>
        timer.remaining == old(timer.Live(now)) && timer.status == Paused && timer.startTs == None
      ensures old(timer.status) != Running ==>
        timer.remaining == old(timer.remaining) && timer.status == old(timer.status)
        && timer.startTs == old(timer.startTs)
    {
      timer.Pause(now);
      snap := timer.GetState(now);
    }

    method Reset(newDuration: Option<int>, now: real) returns (snap: Snapshot)
      requires Valid()
      modifies timer
      ensures Valid() && timer.Settled() && timer.ClockOk(now)
      ensures snap == Snapshot(timer.duration, timer.duration, Stopped)
      ensures timer.duration == if newDuration.Some? then newDuration.value else old(timer.duration)
      ensures timer.remaining == timer.duration && timer.status == Stopped && timer.startTs == None
    {
      timer.Reset(newDuration);
      snap := timer.GetState(now);
    }

    /**
     * `set_remaining`: a debugging hook that overwrites the stored
     * remaining with the clamped input; it neither changes the status or
     * the duration nor clamps to the duration.
     */
    method SetRemaining(seconds: Option<int>, now: real) returns (snap: Snapshot)
      requires Valid() && timer.ClockOk(now)
      modifies timer
      ensures Valid() && timer.ClockOk(now)
      ensures timer.duration == old(timer.duration)
      ensures old(timer.status) != Running ==>
        snap == Snapshot(old(timer.duration), RemainingFrom(seconds), old(timer.status))
        && timer.remaining == RemainingFrom(seconds)
      ensures snap.duration == timer.duration && snap.status == timer.status
      ensures old(timer.status) == Running ==>
        var live := Countdown(RemainingFrom(seconds), now - old(timer.startTs).value);
        && snap.remaining == live
        && (live == 0 ==> timer.status == Completed && timer.remaining == 0 && timer.startTs == None)
        && (live != 0 ==>
              timer.status == Running && timer.remaining == RemainingFrom(seconds)
              && timer.startTs == old(timer.startTs))
    {
      timer.remaining := RemainingFrom(seconds);
      snap := timer.GetState(now);
    }

    method GetState(now: real) returns (snap: Snapshot)
      requires Valid() && timer.ClockOk(now)
      modifies timer
      ensures Valid() && (old(timer.Settled()) ==> timer.Settled()) && timer.ClockOk(now)
      ensures snap == Snapshot(timer.duration, old(timer.Live(now)), timer.status)
      ensures timer.duration == old(timer.duration)
      ensures old(timer.status) == Running && old(timer.Live(now)) == 0 ==>
        timer.status == Completed && timer.remaining == 0 && timer.startTs == None
      ensures !(old(timer.status) == Running && old(timer.Live(now)) == 0) ==>
        timer.remaining == old(timer.remaining) && timer.status == old(timer.status)
        && timer.startTs == old(timer.startTs)
    {
      snap := timer.GetState(now);
    }
  }

  /** Starting the default service and resetting it gives a stopped, full timer. */
  method StartThenReset(t0: real, t1: real) returns (started: Snapshot, reset: Snapshot)
    requires 0.0 < t0 <= t1
    ensures started == Snapshot(DefaultDuration, DefaultDuration, Running)
    ensures reset == Snapshot(DefaultDuration, DefaultDuration, Stopped)
  {
    var svc := new TimerService(null);
    started := svc.Start(t0);
    reset := svc.Reset(None, t1);
  }

  /** `set_remaining` does not clamp to the duration: remaining may exceed it. */
  method SetRemainingExceedsDuration(extra: nat, now: real) returns (snap: Snapshot)
    requires now > 0.0
    ensures snap == Snapshot(DefaultDuration, DefaultDuration + extra + 1, Stopped)
    ensures snap.remaining > snap.duration
  {
    var svc := new TimerService(null);
    snap := svc.SetRemaining(Some(DefaultDuration + extra + 1), now);
  }

  /**
   * After completion, `set_remaining` leaves the status completed while
   * remaining is positive: "completed implies 0 left" holds for the Timer's
   * own operations but not across this hook.
   */
  method SetRemainingAfterCompletion(d: int, t0: real, t1: real, seconds: nat)
    returns (snap: Snapshot)
    requires 0.0 < t0 <= t1 && t0 + d as real <= t1 && seconds > 0
    ensures snap == Snapshot(d, seconds, Completed)
  {
    var t := new Timer(d);
    var svc := new TimerService(t);
    var s := svc.Start(t0);
    s := svc.GetState(t1);
    snap := svc.SetRemaining(Some(seconds), t1);
  }
}
