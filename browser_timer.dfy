/**
 * The timer state of the browser application in `static/js/app.js`: the
 * fields `isRunning`, `isPaused`, `timeRemaining`, `sessionCount`,
 * `currentMode` and `settings` of its `PomodoroTimer` class, the rules
 * that change them, and its pure helpers. DOM updates, sounds, the modal,
 * `setInterval`/`setTimeout` and `localStorage` are left out; the one-second
 * interval becomes explicit calls to `Tick`.
 */
module BrowserTimer {
  import opened Wrappers
  import ClockText

  /** `currentMode`: 'work', 'short-break' or 'long-break'. */
  datatype Mode = WorkMode | ShortBreakMode | LongBreakMode

  /** The settings object; durations are in minutes. */
  datatype Settings = Settings(
    workDuration: int,
    shortBreakDuration: int,
    longBreakDuration: int,
    sessionsUntilLongBreak: int,
    autoStartBreaks: bool,
    autoStartWork: bool,
    soundNotifications: bool)

  /** `defaultSettings`. */
  const DefaultSettings: Settings := Settings(25, 5, 15, 4, false, false, true)

  /**
   * `getCurrentModeDuration`: the minutes of the given mode. Under accepted
   * settings every period lasts 1 to 60 minutes, a short break at most 30.
   */
  function ModeDuration(mode: Mode, settings: Settings): (minutes: int)
    ensures Sane(settings) ==> 1 <= minutes <= 60
    ensures Sane(settings) && mode == ShortBreakMode ==> minutes <= 30
  {
    match mode
    case WorkMode => settings.workDuration
    case ShortBreakMode => settings.shortBreakDuration
    case LongBreakMode => settings.longBreakDuration
  }

  /** `minutesToSeconds`. */
  function MinutesToSeconds(minutes: int): (seconds: int)
    ensures seconds % 60 == 0 && seconds / 60 == minutes
  {
    minutes * 60
  }

  /**
   * `sessionCount % sessionsUntilLongBreak === 0`. JavaScript's `%` keeps
   * the sign of the dividend and Dafny's is Euclidean, but they are zero
   * together; a divisor of 0 gives NaN, which equals nothing, so no long
   * break is ever due then.
   */
  predicate LongBreakDue(sessionCount: int, every: int) {
    every != 0 && sessionCount % every == 0
  }

  /** The mode `switchToNextMode` moves to. */
  function NextMode(mode: Mode, sessionCount: int, settings: Settings): (next: Mode)
    ensures mode != WorkMode <==> next == WorkMode
    ensures next == LongBreakMode <==> mode == WorkMode && LongBreakDue(sessionCount, settings.sessionsUntilLongBreak)
  {
    if mode == WorkMode then
      if LongBreakDue(sessionCount, settings.sessionsUntilLongBreak) then LongBreakMode else ShortBreakMode
    else WorkMode
  }

  /** `checkAutoStart`'s condition: whether the next period starts by itself. */
  predicate ShouldAutoStart(mode: Mode, settings: Settings)
    ensures ShouldAutoStart(mode, settings)
            == if mode == WorkMode then settings.autoStartWork else settings.autoStartBreaks
  {
    (mode == WorkMode && settings.autoStartWork)
    || ((mode == ShortBreakMode || mode == LongBreakMode) && settings.autoStartBreaks)
  }

  /** After a work period only the break setting decides the auto-start, after a break only the work setting. */
  lemma AutoStartFollowsFinishedMode(mode: Mode, sessionCount: int, settings: Settings)
    ensures ShouldAutoStart(NextMode(mode, sessionCount, settings), settings)
            == if mode == WorkMode then settings.autoStartBreaks else settings.autoStartWork
  {
  }

  /** With the default of 4 sessions, the browser's long-break rule is the server's. */
  lemma LongBreakRuleMatchesServer(sessionCount: int)
    requires sessionCount > 0
    ensures LongBreakDue(sessionCount, DefaultSettings.sessionsUntilLongBreak)
            <==> sessionCount % 4 == 0 && sessionCount > 0
  {
  }

  // ---------------------------------------------------------------------
  // formatTime

  /** `n.toString()` for an integer. */
  function JsIntString(n: int): (s: string)
    ensures |s| >= 1
    ensures n < 0 ==> s[0] == '-' && |s| >= 2
  {
    if n < 0 then "-" + ClockText.Decimal(-n) else ClockText.Decimal(n)
  }

  /** `s.padStart(2, '0')`. */
  function PadStart2(s: string): (r: string)
    ensures |r| == if |s| < 2 then 2 else |s|
    ensures r[|r| - |s|..] == s
  {
    if |s| == 0 then "00" else if |s| == 1 then "0" + s else s
  }

  /** JavaScript's `%`: the remainder takes the sign of the dividend. */
  function JsRemainder(a: int, b: int): int
    requires b > 0
  {
    if a >= 0 then a % b else -((-a) % b)
  }

  /**
   * `formatTime(seconds)`: `Math.floor(seconds / 60)` and `seconds % 60`,
   * each padded to two digits. Non-negative inputs give the clock text of
   * that many seconds; a negative input is not clamped and renders with a
   * minus sign.
   */
  function FormatTime(seconds: int): (r: string)
    ensures seconds >= 0 ==> ClockText.ParseClock(r) == Some(seconds) && r == ClockText.FormatSeconds(seconds)
    ensures |r| >= 5
    ensures seconds < 0 ==> r[0] == '-'
  {
    var minutes := seconds / 60;
    var secs := JsRemainder(seconds, 60);
    var r := PadStart2(JsIntString(minutes)) + ":" + PadStart2(JsIntString(secs));
    if seconds >= 0 then
      assert PadStart2(JsIntString(minutes)) == ClockText.Pad2(minutes);
      assert PadStart2(JsIntString(secs)) == ClockText.Pad2(seconds % 60);
      ClockText.FormatSecondsRoundTrip(seconds);
      r
    else
      assert minutes < 0;
      r
  }

  // ---------------------------------------------------------------------
  // validateSettings

  /** What `parseInt(field.value, 10)` yields: an integer, or NaN for a blank or non-numeric field. */
  datatype JsNumber = Num(n: int) | NaN

  /** The object `saveSettings` builds from the form. */
  datatype SettingsForm = SettingsForm(
    workDuration: JsNumber,
    shortBreakDuration: JsNumber,
    longBreakDuration: JsNumber,
    sessionsUntilLongBreak: JsNumber,
    autoStartBreaks: bool,
    autoStartWork: bool,
    soundNotifications: bool)

  /** `x < bound` in JavaScript: false whenever `x` is NaN. */
  predicate JsLess(x: JsNumber, bound: int) {
    x.Num? && x.n < bound
  }

  /** `x > bound` in JavaScript: false whenever `x` is NaN. */
  predicate JsGreater(x: JsNumber, bound: int) {
    x.Num? && x.n > bound
  }

  /** `validateSettings` as written: each field is rejected only if it compares below 1 or above its maximum. */
  predicate ValidateSettingsAsWritten(form: SettingsForm)
    ensures ValidateSettingsAsWritten(form) <==>
      && NaNOrWithin(form.workDuration, 1, 60)
      && NaNOrWithin(form.shortBreakDuration, 1, 30)
      && NaNOrWithin(form.longBreakDuration, 1, 60)
      && NaNOrWithin(form.sessionsUntilLongBreak, 1, 10)
  {
    && !(JsLess(form.workDuration, 1) || JsGreater(form.workDuration, 60))
    && !(JsLess(form.shortBreakDuration, 1) || JsGreater(form.shortBreakDuration, 30))
    && !(JsLess(form.longBreakDuration, 1) || JsGreater(form.longBreakDuration, 60))
    && !(JsLess(form.sessionsUntilLongBreak, 1) || JsGreater(form.sessionsUntilLongBreak, 10))
  }

  /** A field the validation as written lets through: NaN, or a number in range. */
  predicate NaNOrWithin(x: JsNumber, lo: int, hi: int) {
    x.NaN? || lo <= x.n <= hi
  }

  /** On numeric fields the validation as written accepts exactly the documented ranges. */
  lemma AsWrittenOnNumbers(form: SettingsForm)
    requires form.workDuration.Num? && form.shortBreakDuration.Num?
    requires form.longBreakDuration.Num? && form.sessionsUntilLongBreak.Num?
    ensures ValidateSettingsAsWritten(form) <==>
      && 1 <= form.workDuration.n <= 60
      && 1 <= form.shortBreakDuration.n <= 30
      && 1 <= form.longBreakDuration.n <= 60
      && 1 <= form.sessionsUntilLongBreak.n <= 10
  {
  }

  /** A cleared work-duration field (`parseInt('')` is NaN) passes the validation as written. */
  lemma BlankFieldPassesValidation()
    ensures ValidateSettingsAsWritten(SettingsForm(NaN, Num(5), Num(15), Num(4), false, false, true))
  {
  }

  /** A field holds an integer within `lo..hi`. */
  predicate Within(x: JsNumber, lo: int, hi: int) {
    x.Num? && lo <= x.n <= hi
  }

  /**
   * The intended validation: every field is a number within its range.
   * Gives the settings to store, or `None` when the form is rejected.
   */
  function ValidateSettings(form: SettingsForm): (r: Option<Settings>)
    ensures r.Some? <==>
      && Within(form.workDuration, 1, 60)
      && Within(form.shortBreakDuration, 1, 30)
      && Within(form.longBreakDuration, 1, 60)
      && Within(form.sessionsUntilLongBreak, 1, 10)
    ensures r.Some? ==> ValidateSettingsAsWritten(form)
    ensures r.Some? ==> r.value == Settings(
      form.workDuration.n, form.shortBreakDuration.n, form.longBreakDuration.n,
      form.sessionsUntilLongBreak.n, form.autoStartBreaks, form.autoStartWork, form.soundNotifications)
  {
    if && Within(form.workDuration, 1, 60)
       && Within(form.shortBreakDuration, 1, 30)
       && Within(form.longBreakDuration, 1, 60)
       && Within(form.sessionsUntilLongBreak, 1, 10)
    then Some(Settings(
      form.workDuration.n, form.shortBreakDuration.n, form.longBreakDuration.n,
      form.sessionsUntilLongBreak.n, form.autoStartBreaks, form.autoStartWork, form.soundNotifications))
    else None
  }

  /** The intended validation departs from the one as written only on NaN fields. */
  lemma ValidationDiffersOnlyOnNaN(form: SettingsForm)
    requires form.workDuration.Num? && form.shortBreakDuration.Num?
    requires form.longBreakDuration.Num? && form.sessionsUntilLongBreak.Num?
    ensures ValidateSettings(form).Some? <==> ValidateSettingsAsWritten(form)
  {
    AsWrittenOnNumbers(form);
  }

  /** Accepted settings keep every period and the long-break cycle positive. */
  predicate Sane(s: Settings) {
    && 1 <= s.workDuration <= 60
    && 1 <= s.shortBreakDuration <= 30
    && 1 <= s.longBreakDuration <= 60
    && 1 <= s.sessionsUntilLongBreak <= 10
  }

  // ---------------------------------------------------------------------
  // The PomodoroTimer class

  class PomodoroTimer {
    var isRunning: bool
    var isPaused: bool
    var timeRemaining: int
    var sessionCount: nat
    var currentMode: Mode
    var settings: Settings

    /** `getCurrentModeDuration` on the current mode and settings. */
    function CurrentModeDuration(): (minutes: int)
      reads this
      ensures Sane(settings) ==> 1 <= minutes <= 60
    {
      ModeDuration(currentMode, settings)
    }

    /**
     * The constructor followed by `loadSettings`: the defaults, or the
     * settings stored in `localStorage` (not validated), and a full work
     * period.
     */
    constructor (stored: Option<Settings>)
      ensures settings == if stored.Some? then stored.value else DefaultSettings
      ensures currentMode == WorkMode && !isRunning && !isPaused && sessionCount == 0
      ensures timeRemaining == settings.workDuration * 60
    {
      settings := if stored.Some? then stored.value else DefaultSettings;
      currentMode := WorkMode;
      isRunning := false;
      isPaused := false;
      sessionCount := 0;
      timeRemaining := (if stored.Some? then stored.value else DefaultSettings).workDuration * 60;
    }

    /** `startTimer`: a no-op while running unpaused; otherwise running and not paused. */
    method StartTimer()
      modifies this
      ensures isRunning && !isPaused
      ensures timeRemaining == old(timeRemaining) && sessionCount == old(sessionCount)
      ensures currentMode == old(currentMode) && settings == old(settings)
    {
      if isRunning && !isPaused {
        return;
      }
      isRunning := true;
      isPaused := false;
    }

    /** `pauseTimer`: acts only while running unpaused, and then only sets `isPaused`. */
    method PauseTimer()
      modifies this
      ensures isRunning == old(isRunning)
      ensures isPaused == (old(isPaused) || old(isRunning))
      ensures timeRemaining == old(timeRemaining) && sessionCount == old(sessionCount)
      ensures currentMode == old(currentMode) && settings == old(settings)
    {
      if !isRunning || isPaused {
        return;
      }
      isPaused := true;
    }

    /** `resetTimer`: idle again with the current mode's full period; mode and count are kept. */
    method ResetTimer()
      modifies this
      ensures !isRunning && !isPaused
      ensures timeRemaining == MinutesToSeconds(ModeDuration(currentMode, settings))
      ensures sessionCount == old(sessionCount) && currentMode == old(currentMode) && settings == old(settings)
    {
      isRunning := false;
      isPaused := false;
      timeRemaining := CurrentModeDuration() * 60;
    }

    /** `switchToNextMode`: the next mode, with its full period. */
    method SwitchToNextMode()
      modifies this
      ensures currentMode == NextMode(old(currentMode), old(sessionCount), old(settings))
      ensures timeRemaining == MinutesToSeconds(ModeDuration(currentMode, settings))
      ensures isRunning == old(isRunning) && isPaused == old(isPaused)
      ensures sessionCount == old(sessionCount) && settings == old(settings)
    {
      if currentMode == WorkMode {
        if settings.sessionsUntilLongBreak != 0 && sessionCount % settings.sessionsUntilLongBreak == 0 {
          currentMode := LongBreakMode;
        } else {
          currentMode := ShortBreakMode;
        }
      } else {
        currentMode := WorkMode;
      }
      timeRemaining := CurrentModeDuration() * 60;
    }

    /**
     * `completeSession`: stops the timer (leaving `isPaused` as it was),
     * counts a finished work period, moves to the next mode and reports
     * whether `checkAutoStart` schedules the next start.
     */
    method CompleteSession() returns (autoStart: bool)
      modifies this
      ensures !isRunning && isPaused == old(isPaused)
      ensures sessionCount == old(sessionCount) + (if old(currentMode) == WorkMode then 1 else 0)
      ensures currentMode == NextMode(old(currentMode), sessionCount, settings)
      ensures timeRemaining == MinutesToSeconds(ModeDuration(currentMode, settings))
      ensures settings == old(settings)
      ensures autoStart == ShouldAutoStart(currentMode, settings)
    {
      isRunning := false;
      if currentMode == WorkMode {
        sessionCount := sessionCount + 1;
      }
      SwitchToNextMode();
      autoStart := ShouldAutoStart(currentMode, settings);
    }

    /** `skipSession`: completes the current period at once. */
    method SkipSession() returns (autoStart: bool)
      modifies this
      ensures !isRunning && isPaused == old(isPaused)
      ensures sessionCount == old(sessionCount) + (if old(currentMode) == WorkMode then 1 else 0)
      ensures currentMode == NextMode(old(currentMode), sessionCount, settings)
      ensures timeRemaining == MinutesToSeconds(ModeDuration(currentMode, settings))
      ensures settings == old(settings)
      ensures autoStart == ShouldAutoStart(currentMode, settings)
    {
      autoStart := CompleteSession();
    }

    /**
     * `tick`: ignored unless running unpaused; otherwise one second less,
     * and the session completes once nothing is left.
     */
    method Tick() returns (completed: bool, autoStart: bool)
      modifies this
      ensures completed <==> old(isRunning) && !old(isPaused) && old(timeRemaining) <= 1
      ensures !(old(isRunning) && !old(isPaused)) ==>
        isRunning == old(isRunning) && isPaused == old(isPaused) && timeRemaining == old(timeRemaining)
        && sessionCount == old(sessionCount) && currentMode == old(currentMode) && !autoStart
      ensures old(isRunning) && !old(isPaused) && !completed ==>
        isRunning && !isPaused && timeRemaining == old(timeRemaining) - 1
        && sessionCount == old(sessionCount) && currentMode == old(currentMode) && !autoStart
      ensures completed ==>
        !isRunning && !isPaused
        && sessionCount == old(sessionCount) + (if old(currentMode) == WorkMode then 1 else 0)
        && currentMode == NextMode(old(currentMode), sessionCount, settings)
        && timeRemaining == MinutesToSeconds(ModeDuration(currentMode, settings))
        && autoStart == ShouldAutoStart(currentMode, settings)
      ensures settings == old(settings)
    {
      completed, autoStart := false, false;
      if !isRunning || isPaused {
        return;
      }
      timeRemaining := timeRemaining - 1;
      if timeRemaining <= 0 {
        completed := true;
        autoStart := CompleteSession();
      }
    }

    /**
     * `saveSettings` with the intended validation: rejected forms change
     * nothing; accepted ones replace the settings and, when the timer is
     * not running, refill the current period.
     */
    method SaveSettings(form: SettingsForm) returns (accepted: bool)
      modifies this
      ensures accepted <==> ValidateSettings(form).Some?
      ensures !accepted ==>
        settings == old(settings) && timeRemaining == old(timeRemaining)
      ensures accepted ==> settings == ValidateSettings(form).value && Sane(settings)
      ensures accepted && !old(isRunning) ==> timeRemaining == MinutesToSeconds(ModeDuration(currentMode, settings))
      ensures accepted && old(isRunning) ==> timeRemaining == old(timeRemaining)
      ensures isRunning == old(isRunning) && isPaused == old(isPaused)
      ensures sessionCount == old(sessionCount) && currentMode == old(currentMode)
    {
      var validated := ValidateSettings(form);
      if validated.None? {
        return false;
      }
      accepted := true;
      settings := validated.value;
      if !isRunning {
        timeRemaining := CurrentModeDuration() * 60;
      }
    }

    /** `resetSettingsToDefault`, given the answer to its confirmation dialog. */
    method ResetSettingsToDefault(confirmed: bool)
      modifies this
      ensures settings == if confirmed then DefaultSettings else old(settings)
      ensures confirmed && !old(isRunning) ==> timeRemaining == MinutesToSeconds(ModeDuration(currentMode, settings))
      ensures !confirmed || old(isRunning) ==> timeRemaining == old(timeRemaining)
      ensures isRunning == old(isRunning) && isPaused == old(isPaused)
      ensures sessionCount == old(sessionCount) && currentMode == old(currentMode)
    {
      if confirmed {
        settings := DefaultSettings;
        if !isRunning {
          timeRemaining := CurrentModeDuration() * 60;
        }
      }
    }
  }

  /**
   * With the default settings, skipping seven periods from the start walks
   * work, short break, work, short break, work, short break, work and lands
   * in the long break after the fourth work session.
   */
  method FourSessionsScenario() returns (mode: Mode, sessions: nat, remaining: int)
    ensures mode == LongBreakMode && sessions == 4 && remaining == 15 * 60
  {
    var t := new PomodoroTimer(None);
    var auto := t.SkipSession();
    assert t.currentMode == ShortBreakMode;
    auto := t.SkipSession();
    auto := t.SkipSession();
    assert t.currentMode == ShortBreakMode && t.sessionCount == 2;
    auto := t.SkipSession();
    auto := t.SkipSession();
    assert t.currentMode == ShortBreakMode && t.sessionCount == 3;
    auto := t.SkipSession();
    auto := t.SkipSession();
    mode, sessions, remaining := t.currentMode, t.sessionCount, t.timeRemaining;
  }

  /** Skipping a paused period leaves `isPaused` set while the timer is not running. */
  method SkipWhilePaused() returns (running: bool, paused: bool)
    ensures !running && paused
  {
    var t := new PomodoroTimer(None);
    t.StartTimer();
    t.PauseTimer();
    var auto := t.SkipSession();
    running, paused := t.isRunning, t.isPaused;
  }
}
