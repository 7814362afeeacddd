# Deep Focusing: detox window, streaks and timers in Dafny

This project models the logic at the centre of the Deep Focusing digital-detox app.

- **Detox-window evaluator.** Clock times become minutes since midnight. The evaluator decides whether a time lies in a window that may run past midnight. It also computes the minutes left until the window ends and formats durations. Both 12-hour display formats and the ISO-weekday test are here too.
- **Streak-accounting engine.** The `DetoxStats` record holds the current streak, the longest streak, the total of completed days and the last completed date. It changes by completing a day, resetting the streak, resetting everything, or merging a partial record.
- **Settings editor.** The `DetoxSettings` record is updated by a shallow merge. Its setters and the active-day toggle are built on that merge.
- **Three UI state machines.**
  - The time picker: hour and minute steppers that wrap around, plus an AM/PM switch.
  - The lock screen: a three-press emergency bypass, a minute tick that leaves the screen once the window is over, and the elapsed/remaining minutes behind its countdown.
  - The Pomodoro timer on the home screen: a focus/break countdown.

Modules and files:

| file | module | models |
|---|---|---|
| `optional.dfy` | `Optional` | `null`/`undefined` fields and `NaN` results |
| `text.dfy` | `Text` | `toString`, `Number(...)` on digit strings, `padStart(2, '0')`, `split` |
| `time_utils.dfy` | `TimeUtils` | `utils/time.ts` |
| `stats_hook.dfy` | `StatsHook` | `hooks/useDetoxStats.ts` with the defaults in `utils/storage.ts` |
| `settings_hook.dfy` | `SettingsHook` | `hooks/useDetoxSettings.ts` with the defaults in `utils/storage.ts` |
| `time_picker.dfy` | `TimePicker` | `components/TimePicker.tsx` |
| `lock_screen.dfy` | `LockScreen` | `app/lock-screen.tsx` |
| `home.dfy` | `Home` | the `PomodoroTimer` of `app/home.tsx` |

Modelling choices:

- **Time values.** A clock time is the pair of numbers read from `"HH:MM"`; `Valid` means `0 <= h <= 23` and `0 <= m <= 59`.
- **Dates.** Calendar dates are integer day numbers, so "yesterday" is `today - 1`.
- **Inputs passed in.** The current time, today's date and today's `Date.getDay()` are parameters of the operations that read them.
- **Hooks as classes.** Each hook is a class.
  - The record lives in a field that every operation replaces whole, as `setStats`/`setSettings` do.
  - The records sent to the store are kept in a `written` sequence.
  - The value read from the store on mount is a parameter of `LoadStats`/`LoadSettings`.
- **Time picker.** Its selections are fields. The strings it passes to `onChange` are kept in `emitted`.
- **Lock screen.** It holds the stats hook whose streak a bypass resets. `exited` records the call to `router.replace`.

Three behaviours of the code that the model keeps as they are:

- **Updates never fail.** `updateStats` and `updateSettings` never return `false`. `setStorageItem` catches its own errors and never throws (utils/storage.ts:70-82), so the `catch` branch of each update cannot be reached and every update reports success.
- **Inclusive window.** The window is inclusive at both ends: `isTimeInRange` compares with `>=` at the start and `<=` at the end (utils/time.ts:54,57). The lock screen therefore still shows at the end minute itself, with 0 minutes left.
- **Duplicate days.** `toggleActiveDay` on a list with duplicates removes only the first occurrence of the day, so the day stays active. `ToggleDay` models this, and its multiset contract states it.

## Model

| member | source | states |
|---|---|---|
| `TimeUtils.ParseClock` | utils/time.ts:67 | splitting at ':' gives a time exactly when there are at least two pieces and the first two are digit strings (the empty string reads as 0); the hours and minutes are then the values of those two pieces |
| `TimeUtils.ConvertTimeToMinutes` | utils/time.ts:66-69 | a valid time lies in 0..1439 minutes since midnight |
| `TimeUtils.MinutesSplitBack` | utils/time.ts:66-69 | the minute count of a valid time divides back into its hours (quotient by 60) and minutes (remainder), so nothing is lost |
| `TimeUtils.IsTimeInRange` | utils/time.ts:41-63 | for valid times, in range iff going forward round the 24-hour dial from the start reaches the time no later than the end; this covers the plain window and the one that crosses midnight |
| `TimeUtils.WindowBounds` | utils/time.ts:52-58 | both ends of a window are inside it, and a window whose start is later than its end contains 00:00 and 23:59 |
| `TimeUtils.OvernightWindowExample` | utils/time.ts:41-90 | in 22:00-06:00, 23:30 is inside with 390 minutes left, and 12:00 is outside |
| `TimeUtils.GetRemainingDetoxTime` | utils/time.ts:72-90 | for valid times the minutes left lie in 0..1439 and are the forward distance on the dial from the current time to the end |
| `TimeUtils.RemainingZeroAtEnd` | utils/time.ts:80-85 | no time remains exactly when the current time is the end time |
| `TimeUtils.FormatMinutesToHoursAndMinutes` | utils/time.ts:93-102 | the text has two space-separated pieces exactly when the count is at least 60, and one piece otherwise; the last piece is exactly the unpadded decimal of the leftover minutes (count modulo 60) followed by "m", so 0 shows as "0m"; with two pieces the first is exactly the decimal of the whole hours followed by "h"; the text reads back to the same number of minutes |
| `TimeUtils.DurationRoundTrip` | utils/time.ts:97-101 | "Xh Ym" with X > 0 reads back as 60X + Y, and "Ym" as Y |
| `TimeUtils.DurationExamplesMinutes` | utils/time.ts:97-101 | 0 shows as "0m" and 45 as "45m" |
| `TimeUtils.DurationExampleHours` | utils/time.ts:97-98 | 90 shows as "1h 30m" |
| `TimeUtils.GetDayOfWeek` | utils/time.ts:105-108 | the ISO weekday is in 1..7 and agrees with `getDay()` modulo 7, so Sunday 0 becomes 7 and 1..6 stay |
| `TimeUtils.IsDetoxDay` | utils/time.ts:111-114 | true iff some entry of the active-day list is the ISO weekday of today |
| `TimeUtils.ToTwelveHour` | utils/time.ts:10-11 | the displayed hour is in 1..12 and agrees with the hour modulo 12 (0 shows as 12); the period is PM iff the hour is at least 12; minutes are kept |
| `TimeUtils.TwelveHourRoundTrip` | utils/time.ts:10-11 | for a valid time, the 12-hour face determines the 24-hour time |
| `TimeUtils.TwelveHourRoundText` | utils/time.ts:12-14 | "H:MM AM/PM" text, minutes padded to two digits, reads back as the same 12-hour face; the reader takes exactly one colon piece on each side |
| `TimeUtils.RenderTwelveHour` | utils/time.ts:12-14 | the hour field before the colon is the plain decimal hour, not padded; the minute field between the colon and the space is a digit string whose value is the minute, and it is exactly two characters wide below 100 |
| `TimeUtils.FormatTime` | utils/time.ts:2-19 | a string whose numbers do not parse comes back unchanged. Any other string becomes text that reads back as the 12-hour face of its time; its hour field is exactly the unpadded decimal 12-hour hour (one or two characters), and its minute field is zero-padded to two characters. The 12-hour reader accepts exactly one space and exactly one colon before it, so no extra colon pieces can follow the minutes |
| `TimeUtils.FormatTimeDeterminesTime` | utils/time.ts:2-19 | for a valid "HH:MM", the formatted text reads back to the very time it came from |
| `StatsHook.CompleteDay` | hooks/useDetoxStats.ts:47-79 | after a completion the last completed date is today; the longest streak never shrinks; longest >= current is kept; the total grows by exactly 1 unless today was already completed |
| `StatsHook.CompleteDayIdempotent` | hooks/useDetoxStats.ts:51-53 | completing the same day twice equals completing it once |
| `StatsHook.CompleteDayStreak` | hooks/useDetoxStats.ts:51-71 | already completed today: nothing changes. Last completed yesterday: the streak becomes old + 1. Otherwise (a gap or never): the streak becomes exactly 1. In both completing cases the longest streak becomes the larger of the new streak and the old longest |
| `StatsHook.ResetStreakOnlyZeroes` | hooks/useDetoxStats.ts:82-86 | the reset patch zeroes the current streak, keeps longest, total and last date, and keeps longest >= current |
| `StatsHook.Merge` | hooks/useDetoxStats.ts:36 | each field supplied by the partial record takes the partial's value; each field left out keeps the record's value |
| `StatsHook.MergeFields` | hooks/useDetoxStats.ts:36 | fields left out of the partial record keep their values; merging the same partial again changes nothing |
| `StatsHook.MergeWhole` | hooks/useDetoxStats.ts:89-91 | merging a complete record replaces the old one, so `resetStats` yields exactly the defaults |
| `StatsHook.MergeLastWins` | hooks/useDetoxStats.ts:34-44 | two updates in a row equal one update where the later partial wins field by field |
| `StatsHook.TrailingRun` | hooks/useDetoxStats.ts:56-68 | in a strictly increasing completion history, the last k days are consecutive calendar days and the day before them (if any) leaves a gap |
| `StatsHook.LongestRun` | hooks/useDetoxStats.ts:71 | the longest gap-free run of a history is at least its trailing run and at most its length |
| `StatsHook.LongestRunBounds` | hooks/useDetoxStats.ts:71 | the run ending on any day of the history is at most the longest run; an empty history has longest run 0 |
| `StatsHook.LongestRunAttained` | hooks/useDetoxStats.ts:71 | in a non-empty history some day ends a run exactly as long as the longest run |
| `StatsHook.ReplayMatchesHistory` | hooks/useDetoxStats.ts:47-79 | completing a strictly increasing sequence of days from the defaults gives: current streak = gap-free run ending on the last day; longest streak = longest such run; total = number of days; last completed date = last day |
| `StatsHook.DetoxStatsHook.constructor` | hooks/useDetoxStats.ts:12-13 | a new hook holds the default record, is loading and has written nothing |
| `StatsHook.DetoxStatsHook.LoadStats` | hooks/useDetoxStats.ts:16-31 | a stored record replaces the defaults when present; loading ends either way |
| `StatsHook.DetoxStatsHook.UpdateStats` | hooks/useDetoxStats.ts:34-44 | the in-memory record becomes the merge of the old record and the partial; exactly that record is appended to the store writes; success is reported |
| `StatsHook.DetoxStatsHook.CompleteDetoxDay` | hooks/useDetoxStats.ts:47-79 | the record becomes `CompleteDay(old, today)`; a repeat on the same day writes nothing, and any other completion writes the new record once |
| `StatsHook.DetoxStatsHook.ResetStreak` | hooks/useDetoxStats.ts:82-86 | only the current streak changes, to 0, and the record is written once |
| `StatsHook.DetoxStatsHook.ResetStats` | hooks/useDetoxStats.ts:89-91 | the record becomes the defaults {0, 0, 0, null} and is written once |
| `SettingsHook.IndexOf` | hooks/useDetoxSettings.ts:63 | -1 iff the day is absent; otherwise a position holding the day, with no earlier position holding it |
| `SettingsHook.ToggleDay` | hooks/useDetoxSettings.ts:61-74 | an absent day is appended at the end with the earlier entries in order; the multiset of days gains the day when absent and loses exactly one copy when present |
| `SettingsHook.ToggleRemovesFirst` | hooks/useDetoxSettings.ts:63-71 | toggling a present day splices out its first occurrence and keeps everything else in order |
| `SettingsHook.ToggleFlipsMembership` | hooks/useDetoxSettings.ts:61-74 | on a duplicate-free list, membership of the toggled day flips and membership of every other day stays |
| `SettingsHook.ToggleKeepsNoDuplicates` | hooks/useDetoxSettings.ts:61-74 | toggling keeps a duplicate-free list duplicate-free |
| `SettingsHook.ToggleTwice` | hooks/useDetoxSettings.ts:61-74 | toggling an absent day twice restores the exact list; on a duplicate-free list toggling twice restores the same set of days |
| `SettingsHook.ToggleChangesDetoxDay` | hooks/useDetoxSettings.ts:61-74 | after a toggle on a duplicate-free list, today's detox status flips iff the toggled day is today's ISO weekday |
| `SettingsHook.DetoxDayIsMembership` | utils/time.ts:111-114 | `isDetoxDay` is membership of today's ISO weekday in the list |
| `SettingsHook.Merge` | hooks/useDetoxSettings.ts:35 | each field supplied by the partial settings takes the partial's value; each field left out keeps the old value |
| `SettingsHook.MergeOnlySupplied` | hooks/useDetoxSettings.ts:33-37 | fields left out of the partial keep their values; merging a record's own fields changes nothing |
| `SettingsHook.DefaultWindow` | utils/storage.ts:12-17 | the default window is 06:00 to 09:00 |
| `SettingsHook.DefaultDays` | utils/storage.ts:12-17 | the default day list [1..7] has no duplicates and makes every weekday a detox day |
| `SettingsHook.DetoxSettingsHook.constructor` | hooks/useDetoxSettings.ts:11-12 | a new hook holds the default settings, is loading and has written nothing |
| `SettingsHook.DetoxSettingsHook.LoadSettings` | hooks/useDetoxSettings.ts:15-30 | a stored record replaces the defaults when present; loading ends either way |
| `SettingsHook.DetoxSettingsHook.UpdateSettings` | hooks/useDetoxSettings.ts:33-43 | the settings become the merge of the old settings and the partial; exactly that record is written; success is reported |
| `SettingsHook.DetoxSettingsHook.ToggleEnabled` | hooks/useDetoxSettings.ts:46-48 | only `enabled` changes, to its negation |
| `SettingsHook.DetoxSettingsHook.UpdateStartTime` | hooks/useDetoxSettings.ts:51-53 | only the start time changes |
| `SettingsHook.DetoxSettingsHook.UpdateEndTime` | hooks/useDetoxSettings.ts:56-58 | only the end time changes |
| `SettingsHook.DetoxSettingsHook.ToggleActiveDay` | hooks/useDetoxSettings.ts:61-74 | only the active days change, to `ToggleDay` of the old list |
| `SettingsHook.DetoxSettingsHook.ResetSettings` | hooks/useDetoxSettings.ts:77-79 | the settings become the defaults: enabled, 06:00 to 09:00, days 1..7 |
| `TimePicker.HourStep` | components/TimePicker.tsx:26-31 | the hour stays in 0..23; from a valid hour it moves by +1 or -1 modulo 24 (23 up is 0, 0 down is 23) |
| `TimePicker.MinuteStep` | components/TimePicker.tsx:38-43 | the minute stays in 0..55; on the five-minute grid it moves by +5 or -5 modulo 60 and stays on the grid |
| `TimePicker.AmHour` | components/TimePicker.tsx:125-131 | from a valid hour the AM press gives a morning hour with the same value modulo 12 |
| `TimePicker.PmHour` | components/TimePicker.tsx:144-150 | from a valid hour the PM press gives an hour in 12..23 with the same value modulo 12 |
| `TimePicker.UpdateTime` | components/TimePicker.tsx:50-54 | for hours and minutes below 100 the text is two digits, a colon and two digits, and the two fields read as the hours and the minutes |
| `TimePicker.UpdateTimeRoundTrip` | components/TimePicker.tsx:50-54 | the zero-padded "HH:MM" sent to `onChange`, split and read back as the picker reads its `value` (line 19), gives the same hours and minutes |
| `TimePicker.FormatTimeDisplay` | components/TimePicker.tsx:57-63 | the display text reads back as the 12-hour face of the selection: hour modulo 12 with 0 shown as 12, PM iff the hour is at least 12; the hour field is exactly the unpadded decimal 12-hour hour, and the minute field is zero-padded to two characters |
| `TimePicker.HourStepsUndo` | components/TimePicker.tsx:26-34 | up then down, or down then up, returns to the starting hour |
| `TimePicker.MinuteStepsUndo` | components/TimePicker.tsx:38-46 | on the five-minute grid, up and down undo each other |
| `TimePicker.HourPressesWrap` | components/TimePicker.tsx:26-31 | n presses of the up arrow advance the hour by n modulo 24 |
| `TimePicker.AmPmSwitches` | components/TimePicker.tsx:125-150 | pressing AM and then PM leaves an afternoon hour; pressing PM and then AM leaves a morning hour, each with the same value modulo 12 |
| `TimePicker.TimePicker.constructor` | components/TimePicker.tsx:19-23 | the selections are the two numbers parsed from `value`, and nothing has been emitted |
| `TimePicker.TimePicker.HandleHourChange` | components/TimePicker.tsx:26-35 | the hour becomes `HourStep` of the old one; the minutes stay; the new "HH:MM" is emitted once; with valid minutes both selections are on the 24-hour clock afterwards |
| `TimePicker.TimePicker.HandleMinuteChange` | components/TimePicker.tsx:38-47 | the minutes become `MinuteStep` of the old ones; the hour stays; the new "HH:MM" is emitted once |
| `TimePicker.TimePicker.PressAm` | components/TimePicker.tsx:125-131 | an afternoon hour moves back by 12 and is emitted; a morning hour changes nothing and emits nothing |
| `TimePicker.TimePicker.PressPm` | components/TimePicker.tsx:144-150 | a morning hour moves forward by 12 and is emitted; an afternoon hour changes nothing and emits nothing |
| `LockScreen.HeaderIcon` | app/lock-screen.tsx:60-64 | the check icon shows iff there have been no bypass presses |
| `LockScreen.BypassWarning` | app/lock-screen.tsx:115-120 | the warning shows iff there has been at least one press, and always starts with the warning sentence. It is exactly the sentence followed by " (1 more tap to confirm)" iff there has been exactly one press; after two or more presses it is the sentence alone |
| `LockScreen.IconMatchesWarning` | app/lock-screen.tsx:60-120 | the alert icon and the warning appear together |
| `LockScreen.ResetsCount` | app/lock-screen.tsx:47-55 | from a count of a presses, n further presses reset the streak n times when a >= 2, and otherwise n - (2 - a) times, or 0 times if n <= 2 - a |
| `LockScreen.ThreePressesResetOnce` | app/lock-screen.tsx:47-55 | from a fresh screen two presses reset nothing and three presses reset exactly once |
| `LockScreen.ThreeBypassPresses` | app/lock-screen.tsx:47-55 | three presses on a fresh screen: after two it has not left; after three it has reset once, left, zeroed only the current streak and written the record once |
| `LockScreen.ElapsedMinutes` | app/lock-screen.tsx:26-28 | for valid times, the elapsed minutes are the window's length on the dial less the dial distance from the current time to the end |
| `LockScreen.ElapsedWithinWindow` | app/lock-screen.tsx:26-28 | inside the window, total minus remaining is the dial distance from the start, between 0 and the window's length |
| `LockScreen.CountdownEnds` | app/lock-screen.tsx:26-28 | at the start nothing has elapsed; at the end nothing remains and the whole window has elapsed |
| `LockScreen.LockScreen.constructor` | app/lock-screen.tsx:18-23 | a new screen has the current time, no presses, no resets and has not left |
| `LockScreen.LockScreen.HandleBypassAttempt` | app/lock-screen.tsx:47-55 | the count grows by exactly 1. When the count before the press was at least 2, the screen asks for one streak reset, the stats hook's record changes only in its current streak, which becomes 0, and the screen leaves. Otherwise nothing else changes |
| `LockScreen.LockScreen.Tick` | app/lock-screen.tsx:32-44 | the clock takes the new time; the screen leaves iff it had already left or the new time is outside the window |
| `Home.Tick` | app/home.tsx:19-28 | paused: nothing changes. Running with seconds left: the count drops by exactly 1 in the same phase. Running at 0: the phase flips. The seconds stay between 0 and the current phase's length |
| `Home.Format` | app/home.tsx:30 | the text splits at the colon into the whole minutes and the leftover seconds. Below 100 minutes it is two digits, a colon and two digits: the first field reads as the whole minutes and the second as the leftover seconds |
| `Home.FormatRoundTrip` | app/home.tsx:30 | the timer text reads back to the seconds it shows, five characters wide for every reachable count |
| `Home.PhaseRunsOut` | app/home.tsx:21-26 | a running phase with k seconds left ends after k + 1 runs: focus loads 300 seconds of break, and break loads 1500 seconds of focus |
| `Home.FullCycle` | app/home.tsx:15-26 | a running timer returns to a full focus phase after 1500 + 1 + 300 + 1 runs |
| `Home.PausedStays` | app/home.tsx:21-27 | a paused timer never changes |
| `Home.TicksKeepInvariant` | app/home.tsx:15-26 | from any state within bounds, the seconds stay between 0 and the phase length (so within 0..1500) however many runs follow |
| `Home.PomodoroTimer.constructor` | app/home.tsx:15-17 | a new timer shows 1500 seconds of focus and is not running |
| `Home.PomodoroTimer.TimerEffect` | app/home.tsx:19-28 | one run of the effect moves the state by `Tick` |
| `Home.PomodoroTimer.ToggleRunning` | app/home.tsx:36 | only `isRunning` flips |

## Left out

- Rendering and styling: JSX, style sheets, icons and colours. The lock screen's icon and warning are kept as values; their look is left out.
- The progress ring: `ProgressCircle` and the ratio `min(elapsed / total, 1)` use floating point and animation.
- The key-value store: `getStorageItem`/`setStorageItem` use `localStorage` and JSON. The store is opaque here. The value read on mount is a parameter, and the records written are collected in `written`.
- Clock and calendar reads: `getCurrentTime`, `isDetoxActive`, `getTodayISODate`, and the `new Date()` in `completeDetoxDay`. The current time, today's day number and today's `getDay()` are parameters instead.
- ISO date strings: the UTC and local-time mix in `toISOString`, and calendar subtraction, are abstracted as day numbers with yesterday = today - 1.
- `formatDate`: locale formatting. The translation tables in `utils/i18n.ts` are also left out.
- `Text.NumberOf`: JavaScript's `Number` also accepts signs, surrounding whitespace, decimals, exponents and hexadecimal. Only strings of decimal digits are read; every other piece counts as `NaN`. So `formatTime("-5:30")` comes back unchanged in the model, while the app would show "-5:30 AM".
- `TimeUtils.IsTimeInRange`: works on parsed times, so JavaScript's `NaN` comparisons are not modelled. Under them a malformed `time` yields `false`. A malformed start reduces the test to `time <= end`, and a malformed end to `time >= start`. `getRemainingDetoxTime` on a malformed string yields a meaningless number.
- `TimeUtils.FormatMinutesToHoursAndMinutes`: takes a natural number. Negative counts, for which JavaScript's truncating `%` prints negative minutes, are not modelled. The only caller passes a remaining-time count.
- `TimePicker.TimePicker.constructor`: requires a `value` whose two numbers parse. A `NaN` selection is not modelled.
- The picker's later renders: the picker does not re-read `value` after its first render. Prop changes are therefore not modelled.
- React scheduling: state batching, async/await ordering, `setInterval`/`setTimeout` timing, and effect re-subscription when the settings change. Each timer callback is one method call. The lock screen's window is fixed for its lifetime.
- Navigation: `router.replace` is the `exited` flag. A real unmount stops further presses; the model still accepts them.
- Onboarding: the slide navigation and its storage write. The unused `detox_history` key. The home screen's genre picker. The stats screen's static weekly data.
