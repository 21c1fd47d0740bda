# Pomodoro timers, recipe delivery and Fibonacci, in Dafny

This project models the logic of a small repository that holds several
versions of one Pomodoro timer, two versions of a recipe-delivery matcher
from a cooking game, and three Fibonacci functions. Each source file of the
core is one Dafny module. Code that updates state in place is a class with
`modifies` methods. Pure helpers are functions. The clock, the random
choice and the browser are parameters.

- `timer_model.dfy`, module `TimerModel`, models `pomodoro/models/timer.py`.
  The wall-clock timer has four statuses: stopped, running, paused and
  completed. While it runs, the stored `remaining` is a checkpoint, and the
  live value is `max(0, int(remaining - elapsed))`. Reading the state may
  complete the timer. `time.time()` becomes a positive `real` argument `now`.
- `timer_service.dfy`, module `TimerServiceLayer`, models
  `pomodoro/services/timer_service.py`. It is the thin service around one
  `Timer`. It adds `set_remaining`, which clamps its input at 0 and
  overwrites the checkpoint.
- `tick_timer.dfy`, module `TickTimer`, models `pomodoro_timer.py`. This
  timer is driven by ticks and cycles between work and break, counting
  finished work sessions.
- `timer_core.dfy`, module `TimerCore`, models `static/js/timer-core.js`.
  The millisecond timer takes its clock by injection and handles pause and
  resume by shifting the start time. `formatMs` is a pure function.
- `pomodoro_rules.dfy`, module `PomodoroRules`, models
  `services/timer_service.py`. It covers the static settings validation,
  `format_time`, the rule that every fourth pomodoro earns a long break, and
  the display labels. It also covers the list part of `add_history_entry`,
  which appends and keeps the latest 100, and the computation of
  `get_statistics`.
- `browser_timer.dfy`, module `BrowserTimer`, models `static/js/app.js`.
  This is the state of the browser `PomodoroTimer`: running, paused, time
  left, session count, mode and settings. It also has `formatTime`,
  `minutesToSeconds`, `getCurrentModeDuration`, `checkAutoStart` and
  `validateSettings`.
- `kitchen.dfy`, module `Kitchen`, holds what both delivery managers
  share: the `Event` handler list, `PlateKitchenObject`, ingredients and
  recipes, and the two matching rules. `delivery_manager.py:13-67` and
  `deliverManager.py:25-75` define these identically. The rules are the
  multiset rule (`Counter`) and the set rule (`set`). `FirstMatch` is the
  specification of "the first waiting recipe the plate fulfils".
- `delivery_manager.dfy`, module `Delivery`, models `delivery_manager.py`.
  `DeliveryManager` takes its interval and limit as arguments, spawns
  recipes on a countdown and delivers by multiset.
- `deliver_manager.dfy`, module `SetDelivery`, models `deliverManager.py`.
  This `DeliveryManager` has a fixed 4-second countdown and a limit of 4
  recipes, reloads the countdown on every expiry and delivers by set.
- `fibonacci.dfy` has four modules. `FibonacciSpec` holds the recurrence.
  `ArchiveFibonacci` models `Archive/fibonacci.py`: the type and sign
  checks, then two accumulators. `LenientFibonacci` models `fibonacci.py`,
  where `n <= 0` gives 0. `FibonacciList` models `main.py`, which builds
  the list F(0)..F(n-1).
- `clock_text.dfy`, module `ClockText`, holds the two-digit `MM:SS` text
  that all three formatters produce, and a parser for it. The parser turns
  every formatting contract into a round trip.
- `wrappers.dfy`, module `Wrappers`, holds `Option` and `Result`.

Three behaviours of the code that a caller might not expect, which the
model keeps:

- `Timer.reset` passes a negative duration through, and so does the
  constructor. `TimerModel.Timer.Valid` therefore allows a negative
  `remaining` while it still equals the duration.
- `set_remaining` can push `remaining` above `duration`. It also leaves a
  completed timer completed with a non-zero remaining.
- A non-numeric reset duration makes `int(duration)` raise. It is not
  coerced to 0.

## Model

| member | source | states |
|---|---|---|
| TimerModel.Countdown | pomodoro/models/timer.py:46-49 | The live value is never negative. It is 0 exactly when less than one second is left. Otherwise it is the whole number of seconds left, rounded down. It never exceeds the stored remaining once time has passed. |
| TimerModel.Timer.Live | pomodoro/models/timer.py:46-49 | The remaining time reported at `now`: the checkpoint when not running; a non-negative count-down of it while running |
| TimerModel.Timer.constructor | pomodoro/models/timer.py:13-19 | A new timer holds its duration as remaining, is stopped and has no start time |
| TimerModel.Timer.Start | pomodoro/models/timer.py:21-25 | From any status but running: running, with the start time recorded. While running: no change. Remaining and duration are untouched. The invariant (start time ⇔ running) is kept. |
| TimerModel.Timer.Pause | pomodoro/models/timer.py:27-32 | While running: the live value becomes the checkpoint, the start time is cleared and the status is paused. In any other status nothing changes. The invariant is kept. |
| TimerModel.Timer.Reset | pomodoro/models/timer.py:34-39 | Stopped, no start time, remaining equal to the new duration, or to the old one when none is given |
| TimerModel.Timer.GetState | pomodoro/models/timer.py:41-61 | Reports the duration, the live value and the status. A running timer whose live value is 0 becomes completed with 0 stored. Otherwise nothing changes. |
| TimerModel.NonNegativeRemaining | pomodoro/models/timer.py:18-19 | With a non-negative duration the stored remaining is never negative |
| TimerModel.FreshTimerState | pomodoro/models/timer.py:13-19 | A fresh timer reports (d, d, stopped) |
| TimerModel.CountdownScenario | pomodoro/models/timer.py:46-49 | k whole seconds after a start (k < d), the timer reports d − k and is still running |
| TimerModel.CompletionScenario | pomodoro/models/timer.py:51-55 | Once more than d − 1 seconds have passed, the timer reads as completed with 0 left, and so does every later read |
| TimerModel.PauseResumeScenario | pomodoro/models/timer.py:21-32 | A pause freezes the live value. A later start counts down from it, not from the duration. |
| TimerServiceLayer.RemainingFrom | pomodoro/services/timer_service.py:24-30 | The seconds `set_remaining` stores: the input when it is a non-negative int, 0 when it is negative or not convertible |
| TimerServiceLayer.TimerService.constructor | pomodoro/services/timer_service.py:7-8 | An injected timer is kept. Otherwise a fresh stopped 1500-second timer is made. |
| TimerServiceLayer.TimerService.Start | pomodoro/services/timer_service.py:10-12 | Starts the timer, then returns the state read at the same instant. From a non-running status the snapshot shows the stored remaining (clamped at 0); an already running timer shows its live value. A snapshot of 0 means the timer is now completed with 0 stored and no start time. Otherwise it runs with the stored remaining kept and the start time set now, or kept if it was already running. The duration never changes. |
| TimerServiceLayer.TimerService.Pause | pomodoro/services/timer_service.py:14-16 | A running timer stores its live value, drops its start time and becomes paused. Any other timer is unchanged. The duration never changes, and the snapshot is the new state. |
| TimerServiceLayer.TimerService.Reset | pomodoro/services/timer_service.py:18-20 | The timer holds the new or old duration as remaining, stopped, with no start time, and the snapshot is (duration, duration, stopped) |
| TimerServiceLayer.TimerService.SetRemaining | pomodoro/services/timer_service.py:22-33 | The stored remaining becomes the clamped seconds and the duration stays. A non-running timer keeps its status and reports the new value. A running timer reports the count-down of the new value from its start time: at 0 it is completed with 0 stored and no start time, otherwise it keeps running from the same start. The snapshot status is the timer's new status. |
| TimerServiceLayer.TimerService.GetState | pomodoro/services/timer_service.py:35-36 | Same state read and completion transition as the timer's |
| TimerServiceLayer.StartThenReset | pomodoro/services/timer_service.py:10-20 | The default service started reads (1500, 1500, running). Reset, it reads (1500, 1500, stopped). |
| TimerServiceLayer.SetRemainingExceedsDuration | pomodoro/services/timer_service.py:22-33 | `set_remaining` can leave remaining above the duration |
| TimerServiceLayer.SetRemainingAfterCompletion | pomodoro/services/timer_service.py:22-33 | On a completed timer, `set_remaining` gives a completed timer with non-zero seconds |
| TickTimer.AfterTick | pomodoro_timer.py:40 | A tick leaves `max(0, remaining − seconds)`: 0 exactly when the tick covers what was left |
| TickTimer.PomodoroTimer.constructor | pomodoro_timer.py:9-14 | Stopped, a full work period, no sessions |
| TickTimer.PomodoroTimer.Start | pomodoro_timer.py:16-23 | From stopped or break: working with a full work period. Working: no change. |
| TickTimer.PomodoroTimer.Pause | pomodoro_timer.py:25-27 | Stopped, keeping remaining and the session count |
| TickTimer.PomodoroTimer.Reset | pomodoro_timer.py:29-36 | Stopped, with a full break after a break and a full work period otherwise |
| TickTimer.PomodoroTimer.Tick | pomodoro_timer.py:38-47 | Ignored when stopped. Otherwise remaining drops by the tick, floored at 0. At 0, work turns into a full break and counts one session, and a break stops. The count rises only on work → break. |
| TickTimer.WorkBreakCycle | pomodoro_timer.py:38-47 | A full work period then a full break: (break, break duration, 1), then (stopped, 0, 1) |
| TickTimer.PauseAndReset | pomodoro_timer.py:25-36 | Paused mid-work it keeps what is left. Reset, it holds a full work period. |
| TimerCore.FormatMs | static/js/timer-core.js:4-9 | The text parses back to the whole seconds of the input, with negatives as 0. Under one second it is "00:00". |
| TimerCore.CoreTimer.GetRemaining | static/js/timer-core.js:36-41 | The planned time before a start. After one it lies between 0 and the planned time. While paused it is frozen at the pause instant. |
| TimerCore.CoreTimer.constructor | static/js/timer-core.js:12-14 | Neither started nor paused |
| TimerCore.CoreTimer.Start | static/js/timer-core.js:16-24 | A first start records now. A resume shifts the start by the pause length and clears the pause. The reading at now is the planned time after a first start and unchanged otherwise. |
| TimerCore.CoreTimer.Pause | static/js/timer-core.js:26-29 | Records the pause instant only when started and not yet paused. The reading at now is unchanged. |
| TimerCore.CoreTimer.Reset | static/js/timer-core.js:31-34 | Clears start and pause. The reading returns to the planned time. |
| TimerCore.PausedIsFrozen | static/js/timer-core.js:36-41 | While paused, any two clock readings give the same remaining time |
| TimerCore.RemainingNonIncreasing | static/js/timer-core.js:36-41 | A later clock reading never gives more time left |
| TimerCore.PauseResumeScenario | static/js/timer-core.js:16-41 | Start, pause, resume and reset. The pause freezes the reading. The resumed countdown excludes the paused interval. Reset restores the planned time. |
| ClockText.DecimalRoundTrip | services/timer_service.py:133 | The decimal text of a number is all digits and reads back as that number |
| ClockText.Pad2RoundTrip | services/timer_service.py:133 | Zero-padding to two digits keeps the text all digits and its value unchanged |
| ClockText.Pad2Digits | services/timer_service.py:133 | Below 100, the padded text is exactly the tens digit then the units digit |
| ClockText.ClockRoundTrip | services/timer_service.py:133 | Minutes and seconds below 60 joined by a colon parse back to minutes × 60 + seconds |
| ClockText.ClockOfDigits | services/timer_service.py:133 | Two-digit minutes and seconds render as exactly those four digits around the colon |
| ClockText.FormatSecondsRoundTrip | services/timer_service.py:131-133 | `MM:SS` with two-digit minutes and seconds parses back to the number of seconds it was made from |
| ClockText.FormatSecondsInjective | services/timer_service.py:131-133 | Different numbers of seconds never render as the same text |
| PomodoroRules.FieldErrors | services/timer_service.py:108-111 | One field gives no error exactly when it is an int in 1..limit. Otherwise it gives the "not positive" error (non-int or ≤ 0) or the "too long" error, never both. |
| PomodoroRules.ValidateTimerSettings | services/timer_service.py:103-123 | Valid exactly when the error list is empty, exactly when all three fields are in range. There are at most three errors, in field order. |
| PomodoroRules.ValidateTimerSettingsMessages | services/timer_service.py:108-121 | Each of the six errors is present exactly under its condition: not a positive integer, or above 60, 30 and 60 minutes. |
| PomodoroRules.FormatTime | services/timer_service.py:125-133 | The text is at least five characters long with the colon third from the end |
| PomodoroRules.FormatTimeRoundTrip | services/timer_service.py:125-133 | The text parses back to the seconds clamped at 0 and is at least five characters long |
| PomodoroRules.FormatTimeOf | services/timer_service.py:131-133 | Below 100 minutes the text is the two minute digits, a colon and the two second digits |
| PomodoroRules.FormatTimeExamples | services/timer_service.py:125-133 | 0 → "00:00", 59 → "00:59", 60 → "01:00", 1500 → "25:00", −10 → "00:00" |
| PomodoroRules.CalculateBreakDuration | services/timer_service.py:135-138 | The long break exactly when the long-break rule holds, otherwise the short one |
| PomodoroRules.LongBreakEveryFourth | services/timer_service.py:138 | A long break is due exactly at 4, 8, 12, … completed pomodoros |
| PomodoroRules.LongBreakPeriod | services/timer_service.py:138 | After a long break the next three counts give short breaks and the fourth a long one |
| PomodoroRules.GetSessionTypeDisplay | services/timer_service.py:140-147 | The work label exactly for "work". Otherwise the long-break label exactly when the long-break rule holds. |
| PomodoroRules.DisplayAgreesWithBreakDuration | services/timer_service.py:135-147 | The label says long break exactly when the computed break duration is the long one |
| PomodoroRules.AddHistoryEntry | services/timer_service.py:38-64 | The new entry is last. The list keeps the latest 100 entries, in order. The entry is returned only when saving succeeds. |
| PomodoroRules.CountOfType | services/timer_service.py:72 | The count of entries of one type never exceeds the history length |
| PomodoroRules.CompletedOnSelects | services/timer_service.py:78 | Today's entries are exactly the entries whose `completed_at` starts with today's date |
| PomodoroRules.CountOfTypeAppend | services/timer_service.py:72-74 | Counts and durations per type add up over concatenated histories |
| PomodoroRules.TodayCountAppend | services/timer_service.py:78 | Today's pomodoros of a concatenated history add up |
| PomodoroRules.CompletedOnAppend | services/timer_service.py:78 | Today's filter distributes over concatenation |
| PomodoroRules.GetStatistics | services/timer_service.py:66-87 | Sessions count every entry and pomodoros never exceed them; an empty history gives all zeros |
| PomodoroRules.StatisticsAppend | services/timer_service.py:66-87 | The statistics of a concatenation are the sum of the statistics of the parts |
| PomodoroRules.StatisticsOfOneMore | services/timer_service.py:66-87 | One more work entry adds one pomodoro, its duration to the work time and one session |
| PomodoroRules.StatisticsBounds | services/timer_service.py:72-86 | Pomodoros ≤ sessions and today's pomodoros ≤ pomodoros |
| BrowserTimer.MinutesToSeconds | static/js/app.js:681-683 | A whole number of minutes: seconds / 60 gives the minutes back, with no remainder |
| BrowserTimer.NextMode | static/js/app.js:229-240 | A break is followed by work and work by a break. The break is long exactly when the count is a multiple of a non-zero setting (count 0 included, though `completeSession` increments first). A zero setting gives NaN and never a long break. |
| BrowserTimer.ShouldAutoStart | static/js/app.js:253-256 | A work period auto-starts exactly when `autoStartWork` is set, either break exactly when `autoStartBreaks` is |
| BrowserTimer.AutoStartFollowsFinishedMode | static/js/app.js:253-256 | After work, only `autoStartBreaks` decides the auto-start. After a break, only `autoStartWork` does. |
| BrowserTimer.LongBreakRuleMatchesServer | static/js/app.js:231-232 | With the default 4 sessions, the browser's long-break rule is the server's (multiple of 4, positive) |
| BrowserTimer.FormatTime | static/js/app.js:670-674 | For non-negative seconds, the server's `MM:SS` text, which parses back to the input. A negative input is not clamped and starts with '-'. |
| BrowserTimer.ValidateSettingsAsWritten | static/js/app.js:507-525 | A form passes exactly when every field is NaN or within its range: NaN slips through every comparison |
| BrowserTimer.AsWrittenOnNumbers | static/js/app.js:507-525 | On numeric fields, validation accepts exactly work 1..60, short break 1..30, long break 1..60 and sessions 1..10 |
| BrowserTimer.BlankFieldPassesValidation | static/js/app.js:465-478 | A form with an empty work field (NaN) passes the validation as written |
| BrowserTimer.ValidateSettings | static/js/app.js:507-525 | Accepts exactly when every field is a number in its range, and then yields those settings. It never accepts what the code as written rejects. |
| BrowserTimer.ValidationDiffersOnlyOnNaN | static/js/app.js:507-525 | On numeric fields, the intended validation and the validation as written agree |
| BrowserTimer.ModeDuration | static/js/app.js:280-287 | Under accepted settings every period lasts 1..60 minutes, and a short break at most 30 |
| BrowserTimer.PomodoroTimer.CurrentModeDuration | static/js/app.js:280-287 | The current period lasts 1..60 minutes once the settings are accepted ones |
| BrowserTimer.PomodoroTimer.constructor | static/js/app.js:10-30 | Stored or default settings, work mode, idle, no sessions, a full work period |
| BrowserTimer.PomodoroTimer.StartTimer | static/js/app.js:133-147 | Running and not paused afterwards. Nothing else changes. |
| BrowserTimer.PomodoroTimer.PauseTimer | static/js/app.js:152-162 | Sets `isPaused` only while running. Nothing else changes. |
| BrowserTimer.PomodoroTimer.ResetTimer | static/js/app.js:167-178 | Idle, with the full period of the current mode. Mode and count are kept. |
| BrowserTimer.PomodoroTimer.SwitchToNextMode | static/js/app.js:229-248 | The next mode, with its full period |
| BrowserTimer.PomodoroTimer.CompleteSession | static/js/app.js:207-224 | Not running, with `isPaused` kept. One more session after work. The next mode with its full period. Reports whether the next period auto-starts. |
| BrowserTimer.PomodoroTimer.SkipSession | static/js/app.js:183-187 | Same as completing the session |
| BrowserTimer.PomodoroTimer.Tick | static/js/app.js:192-202 | Ignored unless running unpaused. Otherwise one second less, and completion once nothing is left. |
| BrowserTimer.PomodoroTimer.SaveSettings | static/js/app.js:465-502 | A rejected form changes nothing. Accepted settings are stored, and they refill the period when the timer is not running. |
| BrowserTimer.PomodoroTimer.ResetSettingsToDefault | static/js/app.js:530-542 | When confirmed, the defaults, refilling the period when not running. Otherwise no change. |
| BrowserTimer.FourSessionsScenario | static/js/app.js:229-240 | Under the defaults, the fourth finished work session leads to a 15-minute long break |
| BrowserTimer.SkipWhilePaused | static/js/app.js:207-209 | Skipping a paused period leaves the timer not running but still marked paused |
| Kitchen.RemoveAt | delivery_manager.py:201 | `pop(i)`: one element fewer, the others in their order, the multiset minus the removed one |
| Kitchen.RemoveFirst | delivery_manager.py:24-27 | Removing a registered value takes one occurrence away. An absent value leaves the list unchanged. |
| Kitchen.RemoveFirstKeepsNoDuplicates | delivery_manager.py:19-27 | A handler list without duplicates keeps none after a removal, and the removed handler is gone |
| Kitchen.Event.constructor | delivery_manager.py:16-17 | No handlers |
| Kitchen.Event.AddHandler | delivery_manager.py:19-22 | Appends a new handler, ignores a registered one. Never creates a duplicate. |
| Kitchen.Event.RemoveHandler | delivery_manager.py:24-27 | Removes a registered handler, ignores an unknown one. Afterwards the handler is not registered. |
| Kitchen.HandlerScenario | deliverManager.py:30-36 | Adding a twice, then b, gives [a, b]. Removing a, then a again, gives [b]. |
| Kitchen.PlateKitchenObject.constructor | delivery_manager.py:58-59 | An empty plate |
| Kitchen.PlateKitchenObject.AddKitchenObject | delivery_manager.py:61-63 | Appends the ingredient |
| Kitchen.FirstMatch | delivery_manager.py:194-205 | The lowest index of a waiting recipe the plate fulfils. None exactly when no recipe matches. |
| Kitchen.MultisetMatchHasEqualLength | delivery_manager.py:196-199 | A multiset match implies equal lengths, so skipping on a length mismatch loses no match |
| Kitchen.MultisetMatchIsSetMatch | deliverManager.py:176-179 | Every multiset match is also a set match |
| Kitchen.FirstMatchIgnoresOrder | delivery_manager.py:192-199 | Reordering a plate's ingredients never changes the recipe it delivers, under either rule |
| Kitchen.SetMatchIgnoresDuplicates | deliverManager.py:176-179 | [bread, bread] matches a recipe of [bread] by set but not by multiset |
| Delivery.DeliverAsWritten | delivery_manager.py:182-210 | As written, every delivery fails: no plate, an empty plate, or `TypeError` from `Counter` |
| Delivery.SandwichFailsAsWritten | delivery_manager.py:192 | The demo's sandwich plate fails as written, although the intended rule delivers it |
| Delivery.IntendedDelivery | delivery_manager.py:182-207 | Delivered exactly when a plate with ingredients multiset-matches a waiting recipe, and then it is the first such recipe |
| Delivery.AsWrittenAgreesOnlyWithoutIngredients | delivery_manager.py:182-210 | The code as written and the intended rule agree exactly for no plate or an empty plate |
| Delivery.DeliveryManager.constructor | delivery_manager.py:121-146 | Empty list, countdown 0, no successes, with the given interval and limit |
| Delivery.DeliveryManager.Reset | delivery_manager.py:148-153 | Empty list, countdown 0 and success count 0 |
| Delivery.DeliveryManager.Update | delivery_manager.py:155-174 | Subtracts delta. When the countdown has expired, the game is playing and there is room, it reloads the countdown and appends the picked recipe, or raises on an empty recipe list. Otherwise nothing else changes. The list never exceeds its limit. |
| Delivery.DeliveryManager.DeliverRecipe | delivery_manager.py:176-210 | Outcome = the intended delivery. On success the first match is removed, the others keep their order and the count rises by 1. On failure nothing changes. |
| Delivery.ReorderedPlateMatches | delivery_manager.py:192-199 | A plate of a recipe's three ingredients in another order is its first match |
| Delivery.SandwichScenario | delivery_manager.py:155-205 | A spawned sandwich is delivered by a reordered plate, removed from the list and counted |
| Delivery.NothingWaitingScenario | delivery_manager.py:194-207 | With nothing waiting, a plate with an ingredient fails as "no matching recipe" and counts nothing |
| Delivery.CapacityScenario | delivery_manager.py:164-172 | With room for two, three expiring frames leave two recipes waiting |
| SetDelivery.DeliverAsWritten | deliverManager.py:175-185 | As written, a delivery only succeeds for an empty plate and an empty first recipe. Anything else raises or fails. |
| SetDelivery.IntendedDelivery | deliverManager.py:175-185 | Delivered exactly when some waiting recipe has the plate's ingredient set, and then it is the first such recipe |
| SetDelivery.ToastRaisesAsWritten | deliverManager.py:176-178 | A one-bread plate for a waiting one-bread recipe raises as written, where the intended rule delivers it |
| SetDelivery.AsWrittenNeverDeliversFood | deliverManager.py:176 | Any non-empty plate raises `TypeError` as written |
| SetDelivery.DeliveryManager.constructor | deliverManager.py:140-151 | Empty list, countdown 0, no successes |
| SetDelivery.DeliveryManager.Update | deliverManager.py:161-173 | Every expiry reloads the countdown to 4 seconds. A recipe is appended only while playing with fewer than 4 waiting, so never more than 4 wait. |
| SetDelivery.DeliveryManager.DeliverRecipe | deliverManager.py:175-185 | Outcome = the intended set-based delivery. On success the first match is removed and counted. On failure nothing changes. |
| SetDelivery.StoppedGameScenario | deliverManager.py:165-170 | With the game stopped the countdown still reloads to 4 and nothing spawns |
| SetDelivery.DuplicateBreadScenario | deliverManager.py:175-184 | Two breads deliver a one-bread recipe and count one success |
| FibonacciSpec.FibMonotone | Archive/fibonacci.py:42-45 | Fibonacci numbers never decrease with n |
| FibonacciSpec.SmokeValues | Archive/fibonacci.py:50-58 | F(0..3) = 0, 1, 1, 2; F(5) = 5; F(10) = 55; F(20) = 6765 |
| ArchiveFibonacci.Fibonacci | Archive/fibonacci.py:17-45 | `TypeError` exactly for a non-int, `ValueError` exactly for a negative int, otherwise F(n) |
| LenientFibonacci.Fibonacci | fibonacci.py:1-11 | 0 for n ≤ 0, otherwise F(n) |
| LenientFibonacci.AgreesWithArchive | fibonacci.py:1-11 | On every n ≥ 0 it agrees with the checked version. On negative n it gives 0 where the checked one raises `ValueError`. |
| FibonacciList.Fibonacci | main.py:2-14 | Length max(0, n). Element i is F(i). Each element from index 2 on is the sum of the two before it. |
| FibonacciList.ExtendPrefix | main.py:10-12 | Appending the sum of the last two terms to the first k ≥ 2 terms gives the first k + 1 terms |
| FibonacciList.PrefixRecurrence | main.py:11-12 | In the list of first terms, every element from index 2 on is the sum of the two before it |
| FibonacciList.PrefixOfNext | main.py:10-14 | The list for n + 1 is the list for n followed by F(n) |
| FibonacciList.SmallCases | main.py:3-8 | 0 → [], 1 → [0], 2 → [0, 1] |

## Left out

- Clocks and randomness are parameters:
  - `time.time()` becomes `now` or a frame delta;
  - `performance.now()` becomes integer milliseconds;
  - `random.choice` becomes a picked index.
  Every `now` is required not to precede the recorded start.
- TimerServiceLayer.TimerService.Start: each service operation reads the clock once. The source's `timer.start()` and `get_state()` each call `time.time()`, so the state may be read a few microseconds later.
- TimerModel.Timer.Reset: a duration that `int()` cannot convert raises in the source. The model takes `Option<int>` and has no path for a non-integer value.
- Fractional durations are not modelled. Durations are whole numbers of seconds.
- `TimerModel.Timer.Valid` admits the negative duration that the constructor and `reset` accept. It does not claim `remaining <= duration`, which `set_remaining` breaks.
- The getters of `pomodoro_timer.py` and of both delivery managers are reading functions without contracts. The delivery getters return copies, which are values here.
- BrowserTimer: DOM updates, sounds, the modal, `setInterval`/`setTimeout`, keyboard handling and the debug block are not modelled, and neither is `localStorage`. The constructor takes the stored settings, already merged with the defaults, as an argument. `checkAutoStart`'s delayed start is reported as a boolean.
- BrowserTimer.PomodoroTimer.SaveSettings uses the corrected validation (see Findings), so a blank field is rejected. The stored-settings write and the panel toggle are not modelled.
- `getModeDisplayName` and the progress circle (floating point) are not modelled.
- HistoryService: loading and saving the JSON file, the `datetime.now()` id and timestamp, and the `except` paths are not modelled. The history is an argument, the save result is a boolean, and "today" is a string argument.
- `get_statistics`' fallback for a malformed file is not modelled: it can only arise from the file, which is outside the model.
- Event `invoke` runs arbitrary handlers and is not modelled. The handlers are ids, and each operation returns the event it would fire.
- The singletons are not modelled: `KitchenGameManager`, and the `__new__`/`_initialized` pattern of `deliverManager.py`. "Game playing" is a boolean argument, and the `deliverManager.py` constructor models the first initialisation.
- `RecipeManager.get_recipe_by_name` (database cursor) is not modelled.
- SetDelivery.DeliveryManager.DeliverRecipe takes a non-null plate. `deliverManager.py` has no `None` check, and a missing plate raises `AttributeError` there.
- The `__main__` demo blocks and I/O of every file are not modelled. `Archive/fibonacci.py`'s smoke values are a lemma instead.
- ArchiveFibonacci.Fibonacci: a `bool` argument counts as an int, as `isinstance` does in Python; it is not a separate case.

## Findings

| source | as written | input that shows it | evidently intended | confidence | as-written member | corrected member |
|---|---|---|---|---|---|---|
| delivery_manager.py:192 | `Counter(plate_ingredients)` hashes `KitchenObjectSO`. It is a mutable `@dataclass` with `eq=True`, so its `__hash__` is `None`. `TypeError` is raised and turned into a failure at lines 208-210. | The demo's plate [Bread, Lettuce, Tomato] with the sandwich waiting: reported as a failure | The sandwich is delivered, because its ingredients multiset-match the plate | high; not executed | Delivery.SandwichFailsAsWritten | Delivery.DeliveryManager.DeliverRecipe |
| deliverManager.py:176 | `set(...)` hashes the same unhashable dataclass, and nothing catches the `TypeError` | Plate [Bread] with the recipe Toast = [Bread] waiting: `TypeError` escapes `deliver_recipe` | Toast is delivered, because the ingredient sets are equal | high; not executed | SetDelivery.ToastRaisesAsWritten | SetDelivery.DeliveryManager.DeliverRecipe |
| static/js/app.js:507-525 | Each check is `x < lo \|\| x > hi`. Every comparison with NaN is false. | An empty work field: `parseInt('', 10)` is NaN, and the form passes | Non-numeric fields are rejected | high; not executed | BrowserTimer.BlankFieldPassesValidation | BrowserTimer.ValidateSettings |
