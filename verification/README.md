# Pomode timer core in Dafny

This project models the core of Pomode, a browser Pomodoro timer.

The centre is `PomodoroService`, the phase-cycling countdown engine. It holds:
- the current phase: work, short break or long break;
- the run state: idle, running or paused;
- the remaining seconds;
- the count of completed work cycles;
- a newest-first log of completed sessions.

Next to the engine, the model covers:
- the settings clamping rules;
- session filtering and statistics;
- the background timer worker's remaining-time formula and message protocol;
- the toast queue;
- theme resolution;
- language selection;
- viewport breakpoints;
- device-capability decisions;
- the timer view's number and label formatting.

Each source file is one Dafny module:
- `PomodoroEngine` (`pomodoro_service.dfy`)
- `SettingsModel`
- `SessionModel`
- `TimerWorker`
- `Toasts`
- `Themes`
- `Languages`
- `Responsive`
- `DeviceCapability`
- `TimerView`

Two more modules hold shared types: `TimerModel` has the phase and state enumerations from `models/timer.model.ts`, and `Wrappers` has `Option`.

Code that changes state in place is a class with `modifies` clauses:
- the engine, `PomodoroEngine.PomodoroService`;
- the worker, `TimerWorker.Worker`;
- the toast, theme, language, responsive and device-capability services.

Each of these classes has a `Valid()` invariant where the source keeps one. The engine's invariant has two parts:
- a tick subscription exists exactly while the timer is running;
- an idle timer always shows the full length of its phase.

Pure computations are functions, and the properties are lemmas about those functions.

Environment inputs become parameters:
- each one-second interval event is an explicit `Tick(now)` call;
- each 100 ms worker interval is an explicit `Step(now)` call;
- `Date.now()` is an integer parameter;
- the random toast id is a parameter;
- the `prefers-color-scheme` and `prefers-reduced-motion` queries are booleans;
- `navigator.language` is a string.

Local storage is an optional stored value per key. The `timerComplete$` event stream is a ghost log of the emitted phases. The worker's `postMessage` calls append to an outbox log.

The engine counts ticks: it decrements the remaining time by one per delivered interval event, and it has no absolute deadline. An absolute deadline appears only in the worker. The model follows the code here. It does not model a drift-corrected engine that recomputes time from a target end timestamp, and it has no `onResume` recomputation.

`start` tests for the idle state only after it has already set the state to `'running'`, so that reload test never succeeds. `Valid()` shows this is harmless: whenever the timer is idle, the remaining time already equals the phase length. `PomodoroService.Start` therefore states that the time is unchanged.

`skipToNext` advances the phase using the unchanged cycle count. It never counts a cycle and never logs a session. So skips alone never reach a long break from a fresh start: with 0 cycles, `FollowingMode` never chooses one. The repository's unit tests expect a long break after four skips. Also, skipping a work phase right after a long break leads to a long break again (`SkipsAfterLongBreakRepeatIt`).

`updateSettings` merges the given fields without clamping. Clamping lives separately in `models/settings.model.ts`. There it bounds each value to its limits and does not round it.

The session log kept in memory is never truncated. Only the copy written to storage is cut to the newest 100 sessions.

A toast's default duration is 3000 ms, as in the code; the repository's unit tests expect 5000 ms.

## Model

| member | source | states |
|---|---|---|
| `PomodoroEngine.Merge` | pomode-app/src/app/services/pomodoro.service.ts:124-128 | each field present in the patch replaces the current value, and each absent field keeps it |
| `PomodoroEngine.MergeIdempotent` | pomode-app/src/app/services/pomodoro.service.ts:125-128 | applying the same partial settings twice gives the same result as applying them once |
| `PomodoroEngine.TotalTime` | pomode-app/src/app/services/pomodoro.service.ts:227-238 | the phase length in seconds is that phase's configured minutes × 60, so it is a whole number of minutes |
| `PomodoroEngine.JsRemainder` | pomode-app/src/app/services/pomodoro.service.ts:206 | JavaScript `%`: a zero divisor gives NaN (`None`); a non-negative dividend gives the mathematical remainder modulo the divisor's magnitude; a negative dividend gives the result in (−\|b\|, 0] that differs from it by a multiple of \|b\|, which is the truncated remainder |
| `PomodoroEngine.FollowingMode` | pomode-app/src/app/services/pomodoro.service.ts:199-215 | a break is always followed by work; work is always followed by a break, which is a long break exactly when cycles > 0, the cycle length is non-zero and cycles is a multiple of it |
| `PomodoroEngine.TickStep` | pomode-app/src/app/services/pomodoro.service.ts:147-156 | a tick completes the phase exactly when the remaining time is ≤ 0; otherwise it leaves remaining − 1, which is never negative |
| `PomodoroEngine.CompletesOnTickAfterCountdown` | pomode-app/src/app/services/pomodoro.service.ts:147-156 | from T ≥ 0 seconds, the k-th tick (k ≤ T) leaves T − k and tick T + 1 completes the phase, so the time never goes negative |
| `PomodoroEngine.CompletionSequence` | pomode-app/src/app/services/pomodoro.service.ts:165-180 | from a fresh start with cycle length k ≥ 1: after 2n completions the timer is at work with n cycles; the next completion leads to a long break exactly when n + 1 is a multiple of k |
| `PomodoroEngine.SkipsAfterLongBreakRepeatIt` | pomode-app/src/app/services/pomodoro.service.ts:115-119 | because skipping reuses the cycle count, after the k-th work completion leads to a long break, skipping that break and then the next work phase leads to a long break again |
| `PomodoroEngine.ShiftCompletions` | pomode-app/src/app/services/pomodoro.service.ts:161-184 | a + b completions are the same as a completions followed by b more |
| `PomodoroEngine.Minutes` | pomode-app/src/app/services/pomodoro.service.ts:47 | `Math.floor(t / 60)`: the m with m·60 ≤ t < m·60 + 60 |
| `PomodoroEngine.Seconds` | pomode-app/src/app/services/pomodoro.service.ts:48 | `t % 60`: in 0..59 for t ≥ 0 and in (−60, 0] for t < 0, and differing from t by a multiple of 60 |
| `PomodoroEngine.MinutesSecondsSplit` | pomode-app/src/app/services/pomodoro.service.ts:47-48 | a non-negative time splits exactly into minutes × 60 + seconds with seconds in 0..59; a negative time shows seconds in (−60, 0] and negative minutes |
| `PomodoroEngine.Progress` | pomode-app/src/app/services/pomodoro.service.ts:49-53 | progress is 0 % at the full phase length and 100 % at zero remaining; it stays within 0..100 while the remaining time is between 0 and a positive total |
| `PomodoroEngine.StoredSlice` | pomode-app/src/app/services/pomodoro.service.ts:310-311 | the persisted sessions are the first min(100, n) sessions, in order |
| `PomodoroEngine.LoadSettings` | pomode-app/src/app/services/pomodoro.service.ts:257-270 | stored fields are merged over the defaults; with no storage or no stored entry the result is the defaults |
| `PomodoroEngine.PomodoroService.constructor` | pomode-app/src/app/services/pomodoro.service.ts:39-44 | loads settings and sessions, starts idle in the work phase with 0 cycles and the full work time |
| `PomodoroEngine.PomodoroService.Start` | pomode-app/src/app/services/pomodoro.service.ts:76-91 | while running, nothing changes; otherwise the state becomes running and ticking starts; the remaining time is never changed |
| `PomodoroEngine.PomodoroService.Pause` | pomode-app/src/app/services/pomodoro.service.ts:96-101 | nothing changes unless the timer is running; otherwise the state becomes paused, ticking stops and the time is kept |
| `PomodoroEngine.PomodoroService.Reset` | pomode-app/src/app/services/pomodoro.service.ts:106-110 | the state becomes idle, ticking stops and the time is reloaded to the phase length; phase, cycles and sessions are unchanged |
| `PomodoroEngine.PomodoroService.SkipToNext` | pomode-app/src/app/services/pomodoro.service.ts:115-119 | the next phase is computed from the unchanged cycle count, then the timer resets; no session is logged, no cycle is counted and nothing is emitted |
| `PomodoroEngine.PomodoroService.UpdateSettings` | pomode-app/src/app/services/pomodoro.service.ts:124-134 | settings become the unclamped merge; the time is recomputed only when idle; everything else is unchanged |
| `PomodoroEngine.PomodoroService.ClearSessions` | pomode-app/src/app/services/pomodoro.service.ts:139-142 | sessions become empty and cycles become 0; phase, state and time are unchanged |
| `PomodoroEngine.PomodoroService.Tick` | pomode-app/src/app/services/pomodoro.service.ts:147-156 | with positive time left, the time decreases by exactly 1 and nothing else changes; otherwise the phase completes as `OnTimerComplete` states |
| `PomodoroEngine.PomodoroService.OnTimerComplete` | pomode-app/src/app/services/pomodoro.service.ts:161-184 | prepends exactly one session for the finished phase, with its full length; counts a cycle iff that phase was work; emits the phase once; goes idle; advances the phase using the incremented count; loads the new phase's length |
| `PomodoroEngine.PomodoroService.StopTimer` | pomode-app/src/app/services/pomodoro.service.ts:189-194 | afterwards no subscription exists; calling it again is harmless |
| `PomodoroEngine.PomodoroService.NextMode` | pomode-app/src/app/services/pomodoro.service.ts:199-215 | the phase becomes `FollowingMode` of the current phase, cycle count and cycle length |
| `PomodoroEngine.PomodoroService.SaveSession` | pomode-app/src/app/services/pomodoro.service.ts:243-252 | prepends {id, mode, duration = phase length, completedAt = now} |
| `PomodoroEngine.PomodoroService.SaveSettings` | pomode-app/src/app/services/pomodoro.service.ts:275-283 | with storage, the stored settings become the current settings; without storage nothing is written |
| `PomodoroEngine.PomodoroService.SaveSessions` | pomode-app/src/app/services/pomodoro.service.ts:306-316 | with storage, at most the 100 newest sessions are stored; the in-memory list is left as it is |
| `SettingsModel.LimitsOf` | pomode-app/src/app/models/settings.model.ts:35-41 | every limit range is non-empty and non-negative |
| `SettingsModel.ValidateSettingValue` | pomode-app/src/app/models/settings.model.ts:44-51 | the result lies within [min, max]; in-range values are returned unchanged (no rounding); values below min become min and values above max become max |
| `SettingsModel.ValidateIdempotent` | pomode-app/src/app/models/settings.model.ts:50 | clamping a clamped value returns it unchanged |
| `SettingsModel.ValidateMonotone` | pomode-app/src/app/models/settings.model.ts:50 | v1 ≤ v2 implies clamp(v1) ≤ clamp(v2) |
| `SettingsModel.ValidateField` | pomode-app/src/app/models/settings.model.ts:57-59 | an absent field stays absent; a present field is clamped |
| `SettingsModel.ValidateSettings` | pomode-app/src/app/models/settings.model.ts:54-74 | clamps each of the five limited fields only when it is present and passes the two flags through; afterwards cycles ≥ 1 and volume is in [0, 100] |
| `SettingsModel.ToPartial` | pomode-app/src/app/models/settings.model.ts:54-55 | a complete record is a partial record with each of its seven fields present with the same value |
| `SettingsModel.ValidateSettingsFixesExactlyValid` | pomode-app/src/app/models/settings.model.ts:54-74 | validation always ends within the limits, and it leaves a record unchanged exactly when the record is already within them |
| `SettingsModel.DefaultsAreValid` | pomode-app/src/app/models/settings.model.ts:24-41 | the defaults satisfy every limit, so validating them returns them unchanged |
| `SessionModel.CompletedSince` | pomode-app/src/app/models/session.model.ts:46 | the result holds exactly the sessions completed at or after the cutoff, and it is no longer than the input |
| `SessionModel.CompletedSinceIsSubsequence` | pomode-app/src/app/models/session.model.ts:44-57 | the filtered list is an order-preserving subsequence of the input and keeps every qualifying occurrence |
| `SessionModel.CompletedSinceIdempotent` | pomode-app/src/app/models/session.model.ts:46-56 | filtering twice with the same cutoff equals filtering once |
| `SessionModel.FilterSessionsByPeriod` | pomode-app/src/app/models/session.model.ts:37-62 | `'all'` returns the list itself; today, week and month filter by their own cutoff; the result is never longer than the input |
| `SessionModel.ByWork` | pomode-app/src/app/models/session.model.ts:66-67 | the result holds exactly the sessions whose mode is work, or exactly those whose mode is not work |
| `SessionModel.PartitionCovers` | pomode-app/src/app/models/session.model.ts:66-67 | the work and break partitions are disjoint, and together they hold every session exactly once |
| `SessionModel.TotalDurationNonNegative` | pomode-app/src/app/models/session.model.ts:69-70 | non-negative durations have a non-negative sum |
| `SessionModel.PartitionDurationsNonNegative` | pomode-app/src/app/models/session.model.ts:69-70 | each partition's duration sum is non-negative when every duration is |
| `SessionModel.TotalDuration` | pomode-app/src/app/models/session.model.ts:69-70 | the sum of the durations (in seconds); its meaning is stated by `PartitionDurationsAddUp` and `TotalDurationNonNegative` |
| `SessionModel.PartitionDurationsAddUp` | pomode-app/src/app/models/session.model.ts:66-70 | focus time plus break time is the whole recorded time |
| `SessionModel.Round` | pomode-app/src/app/models/session.model.ts:83-84 | `Math.round` returns the integer within half a unit of x, rounding halves up |
| `SessionModel.RoundToTenth` | pomode-app/src/app/models/session.model.ts:85 | `Math.round(x * 10) / 10`: within 0.05 of x and a whole number of tenths |
| `SessionModel.DaysBounded` | pomode-app/src/app/models/session.model.ts:75-76 | there are never more distinct days than sessions, and a non-empty list has at least one day |
| `SessionModel.Days` | pomode-app/src/app/models/session.model.ts:75-76 | the set of day keys of the sessions; its meaning is stated by `DaysAreSessionDays` |
| `SessionModel.DaysAreSessionDays` | pomode-app/src/app/models/session.model.ts:75-76 | the days are exactly the day keys of the sessions' completion times, as `new Set(dates)` is |
| `SessionModel.AverageSessionsPerDay` | pomode-app/src/app/models/session.model.ts:73-78 | an empty list averages 0; a non-empty list averages sessions ÷ days rounded to tenths, which is at least 1 |
| `SessionModel.CalculateSessionStats` | pomode-app/src/app/models/session.model.ts:65-87 | totalSessions = \|sessions\| and workSessions = the number of work sessions ≤ total; an empty list gives all zeros; a non-empty list averages ≥ 1; focus and break minutes are the rounded duration sums of each partition ÷ 60; a non-empty list averages sessions ÷ distinct days rounded to tenths, which is ≥ 1; non-negative durations give non-negative minutes |
| `TimerWorker.CeilSeconds` | pomode-app/src/app/workers/timer.worker.ts:30 | `Math.ceil(d/1000)` is the least r with r·1000 ≥ d |
| `TimerWorker.RemainingSeconds` | pomode-app/src/app/workers/timer.worker.ts:30 | the remaining seconds are ≥ 0 and are 0 iff now ≥ target; when positive they are the least r with r·1000 ≥ target − now |
| `TimerWorker.RemainingIsLeast` | pomode-app/src/app/workers/timer.worker.ts:30 | any whole-second count that covers the span is at least the remaining seconds |
| `TimerWorker.RemainingNonIncreasing` | pomode-app/src/app/workers/timer.worker.ts:30 | for a fixed target, the remaining seconds never increase as time passes |
| `TimerWorker.Completions` | pomode-app/src/app/workers/timer.worker.ts:41-43 | the number of complete messages in the log (their multiplicity in it), at most its length and 0 when it has none |
| `TimerWorker.CompletionsAppend` | pomode-app/src/app/workers/timer.worker.ts:41-43 | complete messages in a concatenated log add up |
| `TimerWorker.StatusReport` | pomode-app/src/app/workers/timer.worker.ts:56-67 | with a zero target nothing is posted; otherwise one status is posted, whose remaining is `RemainingSeconds(target, now)` (so ≥ 0) and whose completed flag holds iff now ≥ target |
| `TimerWorker.Worker.constructor` | pomode-app/src/app/workers/timer.worker.ts:2-3 | starts with target 0 and no interval |
| `TimerWorker.Worker.OnMessage` | pomode-app/src/app/workers/timer.worker.ts:5-22 | `start` replaces the target and leaves exactly one interval running; `stop` stops the interval and keeps the target; `check` posts the status report; other actions change nothing |
| `TimerWorker.Worker.StartTimer` | pomode-app/src/app/workers/timer.worker.ts:24-28 | clears any previous interval, then creates one; the complete count restarts |
| `TimerWorker.Worker.StopTimer` | pomode-app/src/app/workers/timer.worker.ts:49-54 | afterwards no interval runs; the target is untouched; calling it again is harmless |
| `TimerWorker.Worker.Step` | pomode-app/src/app/workers/timer.worker.ts:28-46 | posts a tick with the remaining seconds; when none are left it posts complete right after and stops, so `Valid()` keeps at most one complete per start |
| `TimerWorker.Worker.CheckStatus` | pomode-app/src/app/workers/timer.worker.ts:56-67 | appends exactly the status report |
| `TimerWorker.Worker.Post` | pomode-app/src/app/workers/timer.worker.ts:33-39 | appends one message and updates the count of complete messages since the latest start |
| `Toasts.EffectiveDuration` | pomode-app/src/app/services/toast.service.ts:16 | only an omitted duration becomes 3000; an explicit value, 0 included, is kept |
| `Toasts.Without` | pomode-app/src/app/services/toast.service.ts:74 | the result holds exactly the toasts with a different id, and it is never longer than the input |
| `Toasts.WithoutUnknownId` | pomode-app/src/app/services/toast.service.ts:73-75 | dismissing an id that no toast has leaves the list unchanged |
| `Toasts.WithoutIdempotent` | pomode-app/src/app/services/toast.service.ts:73-75 | dismissing twice is the same as dismissing once |
| `Toasts.WithoutAppend` | pomode-app/src/app/services/toast.service.ts:74 | dismissal distributes over concatenation, so the remaining toasts keep their order |
| `Toasts.DismissUndoesShow` | pomode-app/src/app/services/toast.service.ts:52-75 | dismissing a just-shown toast with a fresh id restores the list from before `show` |
| `Toasts.ToastService.constructor` | pomode-app/src/app/services/toast.service.ts:19 | starts with no toasts |
| `Toasts.ToastService.Show` | pomode-app/src/app/services/toast.service.ts:52-68 | appends exactly one toast at the end with the given message, type (default info) and duration (default 3000); schedules its dismissal iff the duration is > 0 |
| `Toasts.ToastService.ShowSuccess` | pomode-app/src/app/services/toast.service.ts:24-26 | equals `show` with type success |
| `Toasts.ToastService.ShowError` | pomode-app/src/app/services/toast.service.ts:31-33 | equals `show` with type error |
| `Toasts.ToastService.ShowWarning` | pomode-app/src/app/services/toast.service.ts:38-40 | equals `show` with type warning |
| `Toasts.ToastService.ShowInfo` | pomode-app/src/app/services/toast.service.ts:45-47 | equals `show` with type info |
| `Toasts.ToastService.Dismiss` | pomode-app/src/app/services/toast.service.ts:73-75 | the list becomes the old list without that id |
| `Toasts.ToastService.Clear` | pomode-app/src/app/services/toast.service.ts:80-82 | the list becomes empty |
| `Themes.AsTheme` | pomode-app/src/app/services/theme.service.ts:72-79 | a resolved theme is never auto and has the same name |
| `Themes.ModeClass` | pomode-app/src/app/services/theme.service.ts:82-88 | the body class of an effective theme is its name followed by `-mode` |
| `Themes.StoredTheme` | pomode-app/src/app/services/theme.service.ts:113-125 | returns the stored value when it is light, dark or auto; returns auto when storage is missing or the value is missing or unrecognised |
| `Themes.StoredThemeRoundTrip` | pomode-app/src/app/services/theme.service.ts:113-134 | reading back a stored theme name gives the theme that was stored |
| `Themes.SystemTheme` | pomode-app/src/app/services/theme.service.ts:103-108 | dark exactly when the system prefers dark, light otherwise |
| `Themes.Resolve` | pomode-app/src/app/services/theme.service.ts:72-79 | an explicit theme resolves to itself; auto resolves to dark iff the system prefers dark |
| `Themes.Opposite` | pomode-app/src/app/services/theme.service.ts:49-52 | toggling asks for the theme that differs from the effective one, never auto |
| `Themes.ToggleTwiceRestores` | pomode-app/src/app/services/theme.service.ts:49-52 | one toggle flips the effective theme; a second toggle restores it |
| `Themes.ThemeService.constructor` | pomode-app/src/app/services/theme.service.ts:12-20 | the theme is the stored theme, and it is applied |
| `Themes.ThemeService.ApplyTheme` | pomode-app/src/app/services/theme.service.ts:64-91 | stale mode classes are removed; the data-theme attribute and the single mode class name the resolved theme; `effectiveTheme` is the resolved theme |
| `Themes.ThemeService.SetTheme` | pomode-app/src/app/services/theme.service.ts:41-44 | sets and applies the theme and stores its name, so `getStoredTheme` then returns it; body classes other than the two mode classes are kept |
| `Themes.ThemeService.ToggleTheme` | pomode-app/src/app/services/theme.service.ts:49-52 | the theme becomes the opposite of the previous effective theme, never auto, and the effective theme changes; the new theme's name is stored when storage exists; other body classes are kept |
| `Themes.ThemeService.IsDark` | pomode-app/src/app/services/theme.service.ts:57-59 | true iff the document is marked dark |
| `Themes.ThemeService.OnSystemPreferenceChange` | pomode-app/src/app/services/theme.service.ts:29-34 | re-applies the theme only when it is auto; otherwise nothing changes; the theme, the stored value and the other body classes are always kept |
| `Themes.ThemeService.StoreTheme` | pomode-app/src/app/services/theme.service.ts:130-134 | writes the theme's name when storage exists |
| `Languages.Parse` | pomode-app/src/app/services/language.service.ts:65 | a valid code names the supported language whose code it is |
| `Languages.IsValidLanguage` | pomode-app/src/app/services/language.service.ts:88-90 | membership in `en`, `pt`, `es`; its meaning is stated by `ValidLanguagesAreTheCodes` |
| `Languages.ValidLanguagesAreTheCodes` | pomode-app/src/app/services/language.service.ts:88-90 | exactly the codes of the three supported languages are valid |
| `Languages.BeforeFirstDash` | pomode-app/src/app/services/language.service.ts:69 | the result is the longest prefix without a `-`: a prefix, containing no `-`, and followed by `-` when shorter than the input |
| `Languages.LoadLanguage` | pomode-app/src/app/services/language.service.ts:61-76 | a valid saved code wins; otherwise the browser tag's primary subtag if it is valid; otherwise English |
| `Languages.RegionalTagSelectsBase` | pomode-app/src/app/services/language.service.ts:69-72 | with nothing saved, any supported code followed by `-` and any region (`pt-BR`, `es-419`) selects that language |
| `Languages.Find` | pomode-app/src/app/services/language.service.ts:54 | returns the first table entry with the given code, as `Array.prototype.find` does, or `None` exactly when no entry has it |
| `Languages.LanguageName` | pomode-app/src/app/services/language.service.ts:53-56 | the table's name for each language, so the `'English'` fallback is never used |
| `Languages.LanguageService.constructor` | pomode-app/src/app/services/language.service.ts:24 | the current language is the loaded one |
| `Languages.LanguageService.SetLanguage` | pomode-app/src/app/services/language.service.ts:46-48 | the current language becomes the given one |
| `Languages.LanguageService.SaveLanguage` | pomode-app/src/app/services/language.service.ts:36-40 | stores the code, after which loading returns the current language whatever the browser language is |
| `Languages.LanguageService.CurrentLanguageName` | pomode-app/src/app/services/language.service.ts:53-56 | one of the three table names |
| `Responsive.ExactlyOneClass` | pomode-app/src/app/services/responsive.service.ts:19-33 | exactly one of mobile (≤ 767), tablet (768–1023) and desktop (≥ 1024) holds for every width |
| `Responsive.IsMobile` | pomode-app/src/app/services/responsive.service.ts:29 | width ≤ 767; `ExactlyOneClass` states that the three classes partition the widths |
| `Responsive.IsTablet` | pomode-app/src/app/services/responsive.service.ts:30-32 | 767 < width ≤ 1023; see `ExactlyOneClass` |
| `Responsive.IsDesktop` | pomode-app/src/app/services/responsive.service.ts:33 | width > 1023; see `ExactlyOneClass` |
| `Responsive.ScreenSizeOf` | pomode-app/src/app/services/responsive.service.ts:35-39 | names the class that holds |
| `Responsive.BreakpointStateOf` | pomode-app/src/app/services/responsive.service.ts:44-51 | each field equals the corresponding individual classification |
| `Responsive.IsInRange` | pomode-app/src/app/services/responsive.service.ts:81-84 | min ≤ width ≤ max; its meaning is stated by `InRangeBounds` |
| `Responsive.IsExtraSmall` | pomode-app/src/app/services/responsive.service.ts:89-91 | width < 375; see `ExtremesRefineClasses` |
| `Responsive.IsExtraLarge` | pomode-app/src/app/services/responsive.service.ts:96-98 | width > 1440; see `ExtremesRefineClasses` |
| `Responsive.InRangeBounds` | pomode-app/src/app/services/responsive.service.ts:81-84 | both ends are inclusive, and the result is false whenever min > max |
| `Responsive.ExtremesRefineClasses` | pomode-app/src/app/services/responsive.service.ts:89-98 | extra small (< 375) implies mobile, and extra large (> 1440) implies desktop |
| `Responsive.ResponsiveService.constructor` | pomode-app/src/app/services/responsive.service.ts:25-26 | starts from the window size, or 1024×768 (desktop) when there is no window |
| `Responsive.ResponsiveService.OnResize` | pomode-app/src/app/services/responsive.service.ts:60-74 | stores the window's new width and height |
| `Responsive.ResponsiveService.State` | pomode-app/src/app/services/responsive.service.ts:44-51 | the breakpoint state of the stored size |
| `DeviceCapability.EffectiveMemory` | pomode-app/src/app/services/device-capability.service.ts:127 | an absent or zero memory size counts as 4; any other value is used as given |
| `DeviceCapability.HasGoodPerformance` | pomode-app/src/app/services/device-capability.service.ts:125-131 | memory ≥ 4 and no connection type or `4g`; its meaning is stated by `GoodPerformanceCharacterised` |
| `DeviceCapability.ShouldPreload` | pomode-app/src/app/services/device-capability.service.ts:144-149 | online, good performance and not a 2G connection; see `PreloadIsOnlineAndGood` |
| `DeviceCapability.ShouldUseComplexAnimations` | pomode-app/src/app/services/device-capability.service.ts:136-139 | good performance and no reduced-motion preference; see `ComplexAnimationsNeedPerformance` |
| `DeviceCapability.GoodPerformanceCharacterised` | pomode-app/src/app/services/device-capability.service.ts:125-131 | good performance holds iff memory ≥ 4 (or memory unknown) and the connection type is absent, empty or `4g` |
| `DeviceCapability.PreloadIsOnlineAndGood` | pomode-app/src/app/services/device-capability.service.ts:144-149 | preloading holds iff the device is online and has good performance; the 2G exclusion never decides anything |
| `DeviceCapability.ComplexAnimationsNeedPerformance` | pomode-app/src/app/services/device-capability.service.ts:136-139 | complex animations imply good performance and are off whenever reduced motion is preferred |
| `DeviceCapability.DeviceCapabilityService.constructor` | pomode-app/src/app/services/device-capability.service.ts:21-29 | starts from the initial record (everything false except online), or from the detected record in a browser |
| `DeviceCapability.DeviceCapabilityService.UpdateOnlineStatus` | pomode-app/src/app/services/device-capability.service.ts:95-103 | only `isOnline` changes |
| `DeviceCapability.DeviceCapabilityService.UpdateInputCapabilities` | pomode-app/src/app/services/device-capability.service.ts:109-118 | only `hasHover` and `hasPointer` change |
| `TimerView.NatToString` | pomode-app/src/app/components/timer/timer.component.ts:49 | the decimal numeral of n: digit characters only, no leading zero, and denoting n |
| `TimerView.IntToString` | pomode-app/src/app/components/timer/timer.component.ts:49 | `${n}`: a leading `-` exactly when n < 0, then a numeral without leading zero; the string denotes n |
| `TimerView.FormatNumber` | pomode-app/src/app/components/timer/timer.component.ts:48-50 | `"0"` followed by the decimal for n < 10, and the plain decimal otherwise; for 0 ≤ n ≤ 99 exactly two digits, tens then units |
| `TimerView.FormatNumberReadsBack` | pomode-app/src/app/components/timer/timer.component.ts:48-50 | the padded numeral of a non-negative number still denotes that number |
| `TimerView.SecondsRenderAsTwoDigits` | pomode-app/src/app/components/timer/timer.component.ts:48-50 | the seconds of any non-negative remaining time render as exactly two characters |
| `TimerView.ModeText` | pomode-app/src/app/components/timer/timer.component.ts:23-33 | agrees with the `label` of `TIMER_MODE_INFO` for every phase |
| `TimerView.ModeEmoji` | pomode-app/src/app/components/timer/timer.component.ts:35-45 | agrees with the `emoji` of `TIMER_MODE_INFO` for every phase |
| `TimerView.ModeDisplayInjective` | pomode-app/src/app/components/timer/timer.component.ts:23-45 | different phases get different labels and different emoji |

## Left out

- Fractional minutes: the engine (`PomodoroEngine`) keeps settings as whole minutes, so non-integer setting values are not modelled there. `SettingsModel` models setting values as reals.
- PomodoroEngine.Progress: the engine's progress percentage is NaN when the phase length is 0, because settings are not clamped. The model is over reals and requires a non-zero total.
- A partial-settings key that is present with the value `undefined` overwrites the field with `undefined` in a JavaScript object spread. The model has no such case: a field is either present with a number or absent.
- Storage write failures (quota exceeded, a storage exception) are not modelled; only whether storage exists is modelled.
- JSON parsing is not modelled. A stored entry that is missing, empty or unparsable is passed in as `None`.
- The contents of a parsed session list are taken as given.
- Session ids are the creation timestamp as an integer, not its decimal string.
- PomodoroEngine.PomodoroService.SaveSession: one clock reading `now` gives both the id and `completedAt`. The source reads the clock twice (`Date.now()` and `new Date()`), and the two readings can differ.
- Calendar arithmetic is not modelled: the start of today, the instant a week ago, the instant a month ago, and the `toDateString` day key are parameters.
- Floating-point rounding of the minute sums and of the average is not modelled; the sums are exact reals.
- SettingsModel.ValidateSettingValue: the model promises a result within the limits for every input. In the source, `Math.max(min, Math.min(max, value))` passes NaN through unclamped (for example from a cleared number input); reals have no NaN, so that case is not modelled.
- The RxJS `interval` timing is not modelled. The model does not capture that ticks arrive once per second; `Tick` is called once per delivered event.
- The worker's `setInterval` cadence and the `any` type of `endTime` are not modelled; a target is an integer of milliseconds.
- Angular signal and effect scheduling is not modelled. The persisting effects are explicit methods (`SaveSettings`, `SaveSessions`, `SaveLanguage`) that the host calls after a change. The theme effect runs inside `SetTheme`.
- `LanguageService` hands the language to the translation library (`translate.use`, `addLangs`, `setDefaultLang`); this is not modelled.
- Browser probing is not modelled: `matchMedia`, `navigator.onLine`, `deviceMemory`, `connection`, the service worker and notification checks, and the local-storage test. These readings are parameters or the detected record.
- The resize listeners' debounce is not modelled; `OnResize` stores the size that the event reports.
- Toast durations are whole milliseconds. A JavaScript `number` duration can be fractional, and fractional durations are not modelled.
- Toasts.ToastService.Clear: scheduled auto-dismissals stay pending, as in the source. Their later firing is not modelled because it is a later `Dismiss`.
- Audio, notifications, touch detection, the UI components, routing and pages are not part of this model.
