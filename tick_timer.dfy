/**
 * `pomodoro_timer.py`: a tick-driven work/break cycle. The caller advances
 * time explicitly with `tick(seconds)`; a finished work period starts a
 * break and counts one session, a finished break stops the timer.
 */
module TickTimer {

  datatype TimerState = Stopped | Working | Break

  /** The countdown after a tick of `seconds`: `max(0, remaining - seconds)`. */
  function AfterTick(remaining: int, seconds: int): (r: int)
    ensures r >= 0
    ensures r == 0 <==> remaining <= seconds
    ensures r > 0 ==> r == remaining - seconds
  {
    if remaining - seconds < 0 then 0 else remaining - seconds
  }

  class PomodoroTimer {
    const workDuration: int
    const breakDuration: int
    var state: TimerState
    var remaining: int
    var sessionCount: nat

    /** `PomodoroTimer(work_duration=25*60, break_duration=5*60)` with the durations given. */
    constructor (workDuration: int, breakDuration: int)
      ensures this.workDuration == workDuration && this.breakDuration == breakDuration
      ensures state == Stopped && remaining == workDuration && sessionCount == 0
    {
      this.workDuration := workDuration;
      this.breakDuration := breakDuration;
      state := Stopped;
      remaining := workDuration;
      sessionCount := 0;
    }

    /** `start`: from STOPPED or BREAK a full work period begins; WORKING is left alone. */
    method Start()
      modifies this
      ensures state == Working
      ensures remaining == if old(state) == Working then old(remaining) else workDuration
      ensures sessionCount == old(sessionCount)
    {
      if state == Stopped {
        state := Working;
        remaining := workDuration;
      } else if state == Break {
        state := Working;
        remaining := workDuration;
      }
    }

    /** `pause`: stops the timer, keeping what is left and the session count. */
    method Pause()
      modifies this
      ensures state == Stopped
      ensures remaining == old(remaining) && sessionCount == old(sessionCount)
    {
      if state == Working || state == Break {
        state := Stopped;
      }
    }

    /** `reset`: stopped, with a full break if it was in a break, a full work period otherwise. */
    method Reset()
      modifies this
      ensures state == Stopped
      ensures remaining == if old(state) == Break then breakDuration else workDuration
      ensures sessionCount == old(sessionCount)
    {
      if state == Working {
        remaining := workDuration;
      } else if state == Break {
        remaining := breakDuration;
      } else {
        remaining := workDuration;
      }
      state := Stopped;
    }

    /**
     * `tick(seconds)`: a stopped timer ignores ticks; otherwise the
     * countdown advances, and reaching 0 ends the current period.
     */
    method Tick(seconds: int)
      modifies this
      ensures old(state) == Stopped ==>
        state == Stopped && remaining == old(remaining) && sessionCount == old(sessionCount)
      ensures old(state) != Stopped && old(remaining) > seconds ==>
        state == old(state) && remaining == old(remaining) - seconds
        && sessionCount == old(sessionCount)
      ensures old(state) == Working && old(remaining) <= seconds ==>
        state == Break && remaining == breakDuration && sessionCount == old(sessionCount) + 1
      ensures old(state) == Break && old(remaining) <= seconds ==>
        state == Stopped && remaining == 0 && sessionCount == old(sessionCount)
      // the session count only grows, and only on a work-to-break transition
      ensures sessionCount == old(sessionCount) + (if old(state) == Working && state == Break then 1 else 0)
    {
      if state == Working || state == Break {
        remaining := AfterTick(remaining, seconds);
        if remaining == 0 {
          if state == Working {
            state := Break;
            remaining := breakDuration;
            sessionCount := sessionCount + 1;
          } else {
            state := Stopped;
          }
        }
      }
    }

    function GetState(): TimerState
      reads this
    {
      state
    }

    function GetRemaining(): int
      reads this
    {
      remaining
    }

    function GetSessionCount(): nat
      reads this
    {
      sessionCount
    }
  }

  /**
   * A whole work period followed by a whole break: one session is counted
   * at the first boundary and the timer ends stopped with 0 left.
   */
  method WorkBreakCycle(work: int, brk: int) returns (afterWork: (TimerState, int, nat), afterBreak: (TimerState, int, nat))
    ensures afterWork == (Break, brk, 1)
    ensures afterBreak == (Stopped, 0, 1)
  {
    var t := new PomodoroTimer(work, brk);
    t.Start();
    t.Tick(work);
    afterWork := (t.GetState(), t.GetRemaining(), t.GetSessionCount());
    t.Tick(brk);
    afterBreak := (t.GetState(), t.GetRemaining(), t.GetSessionCount());
  }

  /** Started, ticked by less than the work period, paused and reset: a full work period, stopped. */
  method PauseAndReset(work: int, brk: int, s: int) returns (paused: (TimerState, int), reset: (TimerState, int))
    requires s < work
    ensures paused == (Stopped, work - s)
    ensures reset == (Stopped, work)
  {
    var t := new PomodoroTimer(work, brk);
    t.Start();
    t.Tick(s);
    t.Pause();
    paused := (t.GetState(), t.GetRemaining());
    t.Reset();
    reset := (t.GetState(), t.GetRemaining());
  }
}
