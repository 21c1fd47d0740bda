/**
 * `services/timer_service.py`: the static rule helpers of `TimerService`
 * (settings validation, `MM:SS` formatting, the every-fourth-pomodoro long
 * break) and the list part of `HistoryService` (keep the latest 100
 * entries, statistics over the history). The JSON file and `datetime.now`
 * are left out: the history arrives as a sequence, "today" as a date prefix.
 */
module PomodoroRules {
  import opened Wrappers
  import ClockText

  // ---------------------------------------------------------------------
  // validate_timer_settings

  datatype Field = Work | ShortBreak | LongBreak

  /**
   * The two messages each field may produce: "must be a positive integer"
   * and "must be at most N minutes".
   */
  datatype SettingsError = NotPositive(field: Field) | TooLong(field: Field)

  /** Upper bound, in minutes, of each field. */
  function Limit(f: Field): int {
    match f
    case Work => 60
    case ShortBreak => 30
    case LongBreak => 60
  }

  /** Order in which the fields are checked. */
  function Rank(f: Field): nat {
    match f
    case Work => 0
    case ShortBreak => 1
    case LongBreak => 2
  }

  /**
   * A field's value is acceptable: a Python `int` (`None` stands for any
   * value that is not one) from 1 to the field's limit.
   */
  predicate InRange(f: Field, minutes: Option<int>) {
    minutes.Some? && 1 <= minutes.value <= Limit(f)
  }

  /** The message one field contributes, if any. */
  function FieldErrors(f: Field, minutes: Option<int>): (errs: seq<SettingsError>)
    ensures errs == [] <==> InRange(f, minutes)
    ensures errs == [] || errs == [NotPositive(f)] || errs == [TooLong(f)]
    ensures errs == [NotPositive(f)] <==> minutes.None? || minutes.value <= 0
    ensures errs == [TooLong(f)] <==> minutes.Some? && minutes.value > Limit(f)
    ensures forall e :: e in errs ==> e.field == f
  {
    if minutes.None? || minutes.value <= 0 then [NotPositive(f)]
    else if minutes.value > Limit(f) then [TooLong(f)]
    else []
  }

  /** Messages name strictly later fields as they go: at most one per field, in checking order. */
  predicate FieldOrdered(errs: seq<SettingsError>) {
    forall i, j :: 0 <= i < j < |errs| ==> Rank(errs[i].field) < Rank(errs[j].field)
  }

  /** Zero or one message per field, concatenated in checking order, stay ordered. */
  lemma ConcatOrdered(w: seq<SettingsError>, sb: seq<SettingsError>, lb: seq<SettingsError>)
    requires |w| <= 1 && |sb| <= 1 && |lb| <= 1
    requires forall e :: e in w ==> e.field == Work
    requires forall e :: e in sb ==> e.field == ShortBreak
    requires forall e :: e in lb ==> e.field == LongBreak
    ensures FieldOrdered(w + sb + lb)
  {
    var errors := w + sb + lb;
    forall i, j | 0 <= i < j < |errors|
      ensures Rank(errors[i].field) < Rank(errors[j].field)
    {
      if i < |w| {
        assert errors[i] == w[i] && errors[j] in sb + lb;
      } else {
        assert errors[i] == sb[i - |w|] && errors[j] == lb[j - |w| - |sb|];
      }
    }
  }

  /** `validate_timer_settings(work, short_break, long_break)`. */
  function ValidateTimerSettings(work: Option<int>, shortBreak: Option<int>, longBreak: Option<int>)
    : (r: (bool, seq<SettingsError>))
    ensures r.0 <==> r.1 == []
    ensures r.0 <==> InRange(Work, work) && InRange(ShortBreak, shortBreak) && InRange(LongBreak, longBreak)
    ensures |r.1| <= 3
    // at most one message per field, in the order work, short break, long break
    ensures FieldOrdered(r.1)
  {
    var w, sb, lb := FieldErrors(Work, work), FieldErrors(ShortBreak, shortBreak), FieldErrors(LongBreak, longBreak);
    var errors := w + sb + lb;
    ConcatOrdered(w, sb, lb);
    (|errors| == 0, errors)
  }

  /** Each of the six messages is reported exactly when its field is out of range that way. */
  lemma {:induction false} ValidateTimerSettingsMessages(work: Option<int>, shortBreak: Option<int>, longBreak: Option<int>)
    ensures var errors := ValidateTimerSettings(work, shortBreak, longBreak).1;
      && (NotPositive(Work) in errors <==> work.None? || work.value <= 0)
      && (TooLong(Work) in errors <==> work.Some? && work.value > 60)
      && (NotPositive(ShortBreak) in errors <==> shortBreak.None? || shortBreak.value <= 0)
      && (TooLong(ShortBreak) in errors <==> shortBreak.Some? && shortBreak.value > 30)
      && (NotPositive(LongBreak) in errors <==> longBreak.None? || longBreak.value <= 0)
      && (TooLong(LongBreak) in errors <==> longBreak.Some? && longBreak.value > 60)
  {
    var w, sb, lb := FieldErrors(Work, work), FieldErrors(ShortBreak, shortBreak), FieldErrors(LongBreak, longBreak);
    assert ValidateTimerSettings(work, shortBreak, longBreak).1 == w + sb + lb;
    assert [] + w + (sb + lb) == w + sb + lb;
    OwnFieldMessages(Work, work, [], sb + lb);
    OwnFieldMessages(ShortBreak, shortBreak, w, lb);
    assert w + sb + lb + [] == w + sb + lb;
    OwnFieldMessages(LongBreak, longBreak, w + sb, []);
  }

  /** Among messages about other fields, a field's own messages are there exactly under their condition. */
  lemma {:induction false} OwnFieldMessages(f: Field, minutes: Option<int>, before: seq<SettingsError>, after: seq<SettingsError>)
    requires forall e :: e in before ==> e.field != f
    requires forall e :: e in after ==> e.field != f
    ensures NotPositive(f) in before + FieldErrors(f, minutes) + after <==> minutes.None? || minutes.value <= 0
    ensures TooLong(f) in before + FieldErrors(f, minutes) + after <==> minutes.Some? && minutes.value > Limit(f)
  {
    var errors := before + FieldErrors(f, minutes) + after;
    assert forall e :: e in errors <==> e in before || e in FieldErrors(f, minutes) || e in after;
  }

  // ---------------------------------------------------------------------
  // format_time

  /** `format_time`: negatives become 0, then `MM:SS` with `//` and `%` by 60. */
  function FormatTime(totalSeconds: int): (r: string)
    ensures |r| >= 5 && r[|r| - 3] == ':'
  {
    ClockText.FormatSeconds(if totalSeconds < 0 then 0 else totalSeconds)
  }

  /** The text parses back to the seconds clamped at 0. */
  lemma FormatTimeRoundTrip(totalSeconds: int)
    ensures ClockText.ParseClock(FormatTime(totalSeconds)) == Some(if totalSeconds < 0 then 0 else totalSeconds)
    ensures |FormatTime(totalSeconds)| >= 5
  {
    ClockText.FormatSecondsRoundTrip(if totalSeconds < 0 then 0 else totalSeconds);
  }

  /** The values the repository's tests expect of `format_time`. */
  lemma FormatTimeExamples()
    ensures FormatTime(0) == "00:00"
    ensures FormatTime(59) == "00:59"
    ensures FormatTime(60) == "01:00"
    ensures FormatTime(1500) == "25:00"
    ensures FormatTime(-10) == "00:00"
  {
    ClockText.FormatSecondsZero();
    FormatTimeOf(59, 0, 0, 5, 9);
    FormatTimeOf(60, 0, 1, 0, 0);
    FormatTimeOf(1500, 2, 5, 0, 0);
  }

  /** Below 100 minutes, `format_time` prints the two digits of the minutes and of the seconds. */
  lemma FormatTimeOf(total: nat, m1: nat, m0: nat, s1: nat, s0: nat)
    requires m1 < 10 && m0 < 10 && s1 < 6 && s0 < 10
    requires total / 60 == 10 * m1 + m0 && total % 60 == 10 * s1 + s0
    ensures FormatTime(total)
         == [ClockText.DigitChar(m1), ClockText.DigitChar(m0), ':', ClockText.DigitChar(s1), ClockText.DigitChar(s0)]
  {
    assert FormatTime(total) == ClockText.Clock(10 * m1 + m0, 10 * s1 + s0);
    ClockText.ClockOfDigits(m1, m0, s1, s0);
  }

  // ---------------------------------------------------------------------
  // calculate_break_duration / get_session_type_display

  /**
   * The long-break rule: a positive number of completed pomodoros that is
   * a multiple of 4. Python's `%` rounds toward minus infinity and Dafny's
   * is Euclidean; for the divisor 4 they agree.
   */
  predicate LongBreakDue(completed: int) {
    completed % 4 == 0 && completed > 0
  }

  /** `calculate_break_duration`: the long break exactly when it is due. */
  function CalculateBreakDuration(completed: int, shortBreakTime: int, longBreakTime: int): (r: int)
    ensures LongBreakDue(completed) ==> r == longBreakTime
    ensures !LongBreakDue(completed) ==> r == shortBreakTime
  {
    if completed % 4 == 0 && completed > 0 then longBreakTime else shortBreakTime
  }

  /** Long breaks come after the 4th, 8th, 12th, ... pomodoro and after no other count. */
  lemma LongBreakEveryFourth(completed: int)
    ensures LongBreakDue(completed) <==> exists k: nat :: 1 <= k && completed == 4 * k
  {
    if LongBreakDue(completed) {
      var k: nat := completed / 4;
      assert 1 <= k && completed == 4 * k;
    }
  }

  /** Between two long breaks come exactly three short ones. */
  lemma LongBreakPeriod(completed: int)
    requires LongBreakDue(completed)
    ensures !LongBreakDue(completed + 1) && !LongBreakDue(completed + 2) && !LongBreakDue(completed + 3)
    ensures LongBreakDue(completed + 4)
  {
  }

  const WorkLabel: string := "\U{4f5c}\U{696d}\U{4e2d}"                      // 作業中
  const LongBreakLabel: string := "\U{9577}\U{3044}\U{4f11}\U{61a9}\U{4e2d}"  // 長い休憩中
  const ShortBreakLabel: string := "\U{4f11}\U{61a9}\U{4e2d}"                 // 休憩中

  /** `get_session_type_display`: the work label, else the long- or short-break label. */
  function GetSessionTypeDisplay(sessionType: string, completed: int): (text: string)
    ensures sessionType == "work" <==> text == WorkLabel
    ensures text == LongBreakLabel <==> sessionType != "work" && LongBreakDue(completed)
    ensures text == ShortBreakLabel <==> sessionType != "work" && !LongBreakDue(completed)
  {
    if sessionType == "work" then WorkLabel
    else
      var isLongBreak := completed % 4 == 0 && completed > 0;
      if isLongBreak then LongBreakLabel else ShortBreakLabel
  }

  /** The label and the break length agree: a long-break label goes with the long break. */
  lemma DisplayAgreesWithBreakDuration(sessionType: string, completed: int, shortBreakTime: int, longBreakTime: int)
    requires sessionType != "work" && shortBreakTime != longBreakTime
    ensures GetSessionTypeDisplay(sessionType, completed) == LongBreakLabel
            <==> CalculateBreakDuration(completed, shortBreakTime, longBreakTime) == longBreakTime
  {
  }

  // ---------------------------------------------------------------------
  // HistoryService: add_history_entry and get_statistics

  /** One history record as `add_history_entry` builds it. */
  datatype Entry = Entry(id: string, sessionType: string, duration: int, completedAt: string, pomodoroCount: int)

  /** Only the latest 100 entries are kept. */
  const HistoryLimit: nat := 100

  /**
   * `add_history_entry` without the file: the loaded history gets the new
   * entry appended and is cut to its last 100 items (`history[-100:]`).
   * `id` and `completedAt` stand for the two `datetime.now()` readings and
   * `saved` for the outcome of `save_history`; the entry is returned only
   * when the save succeeded.
   */
  method AddHistoryEntry(history: seq<Entry>, sessionType: string, duration: int, pomodoroCount: int,
                         id: string, completedAt: string, saved: bool)
    returns (newHistory: seq<Entry>, result: Option<Entry>)
    ensures |newHistory| == if |history| + 1 <= HistoryLimit then |history| + 1 else HistoryLimit
    ensures newHistory[|newHistory| - 1] == Entry(id, sessionType, duration, completedAt, pomodoroCount)
    // the result is a suffix of the old history followed by the new entry
    ensures newHistory == (history + [newHistory[|newHistory| - 1]])[|history| + 1 - |newHistory|..]
    ensures |history| < HistoryLimit ==> newHistory == history + [newHistory[|newHistory| - 1]]
    ensures result == if saved then Some(newHistory[|newHistory| - 1]) else None
  {
    var entry := Entry(id, sessionType, duration, completedAt, pomodoroCount);
    newHistory := history;
    newHistory := newHistory + [entry];
    if |newHistory| > HistoryLimit {
      newHistory := newHistory[|newHistory| - HistoryLimit..];
    }
    result := if saved then Some(entry) else None;
  }

  /** The dictionary `get_statistics` returns. */
  datatype Statistics = Statistics(
    totalPomodoros: nat,
    totalWorkTime: int,
    totalBreakTime: int,
    todayPomodoros: nat,
    totalSessions: nat)

  /** Number of entries of the given session type. */
  function CountOfType(history: seq<Entry>, sessionType: string): (n: nat)
    ensures n <= |history|
  {
    if history == [] then 0
    else (if history[0].sessionType == sessionType then 1 else 0) + CountOfType(history[1..], sessionType)
  }

  /** Sum of the durations of the entries of the given session type. */
  function DurationOfType(history: seq<Entry>, sessionType: string): int {
    if history == [] then 0
    else (if history[0].sessionType == sessionType then history[0].duration else 0)
         + DurationOfType(history[1..], sessionType)
  }

  /** The entries whose `completed_at` starts with `today`. */
  function CompletedOn(history: seq<Entry>, today: string): (r: seq<Entry>)
    ensures |r| <= |history|
  {
    if history == [] then []
    else (if today <= history[0].completedAt then [history[0]] else []) + CompletedOn(history[1..], today)
  }

  /** Today's entries are exactly the entries whose `completed_at` starts with `today`. */
  lemma {:induction false} CompletedOnSelects(history: seq<Entry>, today: string)
    ensures forall e :: e in CompletedOn(history, today) <==> e in history && today <= e.completedAt
  {
    if history != [] {
      CompletedOnSelects(history[1..], today);
      assert history == [history[0]] + history[1..];
    }
  }

  /** `get_statistics` over a loaded history, `today` being `datetime.now()` as `%Y-%m-%d`. */
  function GetStatistics(history: seq<Entry>, today: string): (r: Statistics)
    ensures r.totalSessions == |history| && r.totalPomodoros <= r.totalSessions
    ensures history == [] ==> r == Statistics(0, 0, 0, 0, 0)
  {
    Statistics(
      CountOfType(history, "work"),
      DurationOfType(history, "work"),
      DurationOfType(history, "break"),
      CountOfType(CompletedOn(history, today), "work"),
      |history|)
  }

  /** Counting distributes over concatenation. */
  lemma {:induction false} CountOfTypeAppend(a: seq<Entry>, b: seq<Entry>, sessionType: string)
    ensures CountOfType(a + b, sessionType) == CountOfType(a, sessionType) + CountOfType(b, sessionType)
    ensures DurationOfType(a + b, sessionType) == DurationOfType(a, sessionType) + DurationOfType(b, sessionType)
  {
    if a == [] {
      assert a + b == b;
    } else {
      assert (a + b)[1..] == a[1..] + b;
      CountOfTypeAppend(a[1..], b, sessionType);
    }
  }

  /** Filtering by date distributes over concatenation. */
  lemma {:induction false} CompletedOnAppend(a: seq<Entry>, b: seq<Entry>, today: string)
    ensures CompletedOn(a + b, today) == CompletedOn(a, today) + CompletedOn(b, today)
  {
    if a == [] {
      assert a + b == b;
    } else {
      assert (a + b)[1..] == a[1..] + b;
      CompletedOnAppend(a[1..], b, today);
    }
  }

  /** Statistics of two histories combined field by field. */
  function Combine(x: Statistics, y: Statistics): Statistics {
    Statistics(
      x.totalPomodoros + y.totalPomodoros,
      x.totalWorkTime + y.totalWorkTime,
      x.totalBreakTime + y.totalBreakTime,
      x.todayPomodoros + y.todayPomodoros,
      x.totalSessions + y.totalSessions)
  }

  /** Statistics are additive: a concatenated history adds up its parts. */
  lemma {:induction false} StatisticsAppend(a: seq<Entry>, b: seq<Entry>, today: string)
    ensures GetStatistics(a + b, today) == Combine(GetStatistics(a, today), GetStatistics(b, today))
  {
    CountOfTypeAppend(a, b, "work");
    CountOfTypeAppend(a, b, "break");
    TodayCountAppend(a, b, today);
  }

  /** Today's pomodoros of a concatenated history add up. */
  lemma {:induction false} TodayCountAppend(a: seq<Entry>, b: seq<Entry>, today: string)
    ensures CountOfType(CompletedOn(a + b, today), "work")
         == CountOfType(CompletedOn(a, today), "work") + CountOfType(CompletedOn(b, today), "work")
  {
    var ca, cb := CompletedOn(a, today), CompletedOn(b, today);
    CompletedOnAppend(a, b, today);
    CountOfTypeAppend(ca, cb, "work");
  }

  /** One more work entry adds exactly one pomodoro and its duration to the work time. */
  lemma {:induction false} StatisticsOfOneMore(history: seq<Entry>, e: Entry, today: string)
    requires e.sessionType == "work"
    ensures var before, after := GetStatistics(history, today), GetStatistics(history + [e], today);
      && after.totalPomodoros == before.totalPomodoros + 1
      && after.totalWorkTime == before.totalWorkTime + e.duration
      && after.totalBreakTime == before.totalBreakTime
      && after.todayPomodoros == before.todayPomodoros + (if today <= e.completedAt then 1 else 0)
      && after.totalSessions == before.totalSessions + 1
  {
    StatisticsAppend(history, [e], today);
    assert [e][1..] == [];
    assert "work" != "break";
    assert CountOfType([e], "work") == 1;
    assert DurationOfType([e], "work") == e.duration;
    assert DurationOfType([e], "break") == 0;
    assert CompletedOn([e], today) == if today <= e.completedAt then [e] else [];
  }

  /** Pomodoros are a subset of sessions, and today's pomodoros a subset of all pomodoros. */
  lemma {:induction false} StatisticsBounds(history: seq<Entry>, today: string)
    ensures GetStatistics(history, today).totalPomodoros <= GetStatistics(history, today).totalSessions
    ensures GetStatistics(history, today).todayPomodoros <= GetStatistics(history, today).totalPomodoros
  {
    if history != [] {
      StatisticsBounds(history[1..], today);
      assert CompletedOn(history, today)
        == (if today <= history[0].completedAt then [history[0]] else []) + CompletedOn(history[1..], today);
      CountOfTypeAppend(if today <= history[0].completedAt then [history[0]] else [], CompletedOn(history[1..], today), "work");
      assert [history[0]][1..] == [];
    }
  }
}
