# Focus timer: a verified model

This project models the logic of a single-page focus timer (a Pomodoro-style
widget) in Dafny:

- the countdown state machine of the `useTimer` hook: one record with
  `isActive`, `isPaused`, `sessionMinutes`, `remainingTime` and `totalTime`,
  its transitions (set the session length, start, pause, reset, toggle, the
  one-second tick) and its derived views (the `MM:SS` display, the progress
  fraction, completion);
- the circular drag control: pointer angle to session minutes, and session
  minutes to where the handle is drawn;
- the ambient-sound hook `useAudio`: its enabled/loaded/playing flags, the list
  of running oscillators, play/pause/stop/toggle and the status text;
- the focus page: the texts it shows, the minute buttons, and the effects that
  play, pause and stop the sound and raise the completion toast.

Files and modules:

| file | module | models |
|---|---|---|
| `use_timer.dfy` | `Timer` | `client/src/hooks/use-timer.ts` |
| `circular_timer.dfy` | `CircularTimer` | `client/src/components/timer/circular-timer.tsx` |
| `use_audio.dfy` | `Audio` | `client/src/hooks/use-audio.ts` |
| `timer_page.dfy` | `TimerPage` | `client/src/pages/timer.tsx` |
| `digits.dfy` | `Digits` | `toString()` and `padStart(2, '0')` of non-negative integers, with their read-back |

The timer's transitions are written twice, as the source has them: each
`setState(prev => ...)` updater is a pure function on `TimerState`
(`Tick`, `WithSessionMinutes`, `Start`, `Pause`, `Reset`, `Toggle`), and the
hook is the class `Timer.TimerHook`, whose methods overwrite its five fields
and are proved to produce exactly the updater's result. The invariant
`Timer.Valid` (1 ≤ sessionMinutes ≤ 60, totalTime = 60·sessionMinutes,
0 ≤ remainingTime ≤ totalTime) is proved preserved by every updater. The
interval is modelled by `Timer.Advance(s, n)`: `n` firings of the tick, which
stop as soon as the timer is no longer active and unpaused.

Arithmetic is exact: seconds and minutes are unbounded integers (the values
never leave 0..3600), angles are reals, and the progress fraction is an exact
real quotient rather than a floating-point one. JavaScript's `%` on numbers is the
truncated remainder (`CircularTimer.Rem360`), `Math.round` is `floor(x + 0.5)`
(`CircularTimer.Round`), and `Math.floor(t / 60)` for the non-negative `t` in
play is Dafny's `t / 60`.

Twelve o'clock selects 1 minute, not 60: the normalised angle there is 0,
rounds to 0, and the `minutes || 1` fallback turns it into 1
(`CircularTimer.SampleAngles`). So the centre angle of the handle drawn for a
60-minute session, 0, maps to 1, while a press just clockwise of it, up to
three degrees, selects 60 (`CircularTimer.SixtyWindow`). Also,
`pauseTimer` is not guarded: called on an idle timer it sets `isPaused`
without `isActive` (`Timer.PauseWhileIdle`); the page only pauses through the
toggle, which never does this (`Timer.PausedOnlyWhenActiveKept`).

## Model

| member | source | states |
|---|---|---|
| `Timer.InitialStateValid` | client/src/hooks/use-timer.ts:12-18 | The hook starts idle with a 25-minute session, 1500 seconds on the clock and in total, satisfying the invariant, not completed. |
| `Timer.ClampMinutes` | client/src/hooks/use-timer.ts:60 | The requested length is clamped into [1, 60]: kept when in range, 1 below, 60 above. |
| `Timer.Tick` | client/src/hooks/use-timer.ts:22-37 | At one second or less the tick completes (0 left, not active, not paused); otherwise exactly one second is taken off and the flags stay; the session length and total never change; the invariant is kept. |
| `Timer.WithSessionMinutes` | client/src/hooks/use-timer.ts:57-69 | While active (paused or not) the record is returned unchanged; when not active the session becomes the clamped value and total and remaining both become 60 times it, flags untouched, and the result satisfies the invariant whatever was requested. |
| `Timer.Start` | client/src/hooks/use-timer.ts:71-77 | Starting leaves the timer running (active, not paused) with all times untouched; the invariant is kept. |
| `Timer.Pause` | client/src/hooks/use-timer.ts:79-84 | Pausing sets only the paused flag, so the tick stops; activity and times untouched; the invariant is kept. |
| `Timer.Reset` | client/src/hooks/use-timer.ts:86-93 | Reset leaves the timer idle with the full total back on the clock; session length and total unchanged; the invariant is kept. |
| `Timer.Toggle` | client/src/hooks/use-timer.ts:95-101 | Toggle pauses a running timer and starts any other, so it always flips whether the countdown runs; times unchanged; the invariant is kept. |
| `Timer.FormattedTime` | client/src/hooks/use-timer.ts:103-107 | The display is two digit fields around a colon whose values satisfy minutes·60 + seconds = remainingTime with seconds < 60; under the invariant it is exactly five characters. |
| `Timer.Progress` | client/src/hooks/use-timer.ts:109-112 | Progress is 0 for an empty session, otherwise the elapsed share of the total; under the invariant it lies in [0, 1], is 1 exactly when completed and 0 exactly when nothing has elapsed. |
| `Timer.IsCompleted` | client/src/hooks/use-timer.ts:114 | Completion implies a zero clock; under the invariant the session is never empty, so completion is exactly a remaining time of zero. |
| `Timer.Advance` | client/src/hooks/use-timer.ts:40-48 | With the timer paused or idle no interval runs, so nothing changes; any number of firings keeps the session length and total, keeps the invariant and never adds time. |
| `Timer.AdvanceCountsDown` | client/src/hooks/use-timer.ts:22-48 | A running timer ticked n times, n less than the seconds left, has exactly n seconds fewer and is otherwise unchanged, still running. |
| `Timer.AdvanceCompletes` | client/src/hooks/use-timer.ts:22-48 | A running timer ticked at least as many times as it has seconds left (and at least once) ends at 0, not active, not paused, whatever the number of further firings. |
| `Timer.CompletesOnce` | client/src/hooks/use-timer.ts:24-31 | A running session is not completed before its last second, is completed and idle at it, and does not change after it: completion happens once per run. |
| `Timer.ResetAfterAdvance` | client/src/hooks/use-timer.ts:86-93 | Resetting after any amount of countdown gives the same record as resetting before it. |
| `Timer.ToggleCycle` | client/src/hooks/use-timer.ts:95-101 | From idle, toggling gives Running, then Paused, then the same Running record again. |
| `Timer.PausedOnlyWhenActiveKept` | client/src/hooks/use-timer.ts:22-101 | "Paused implies active" is kept by the tick, the setter, start, reset, toggle and any run of the interval, and by pause applied to an active timer. |
| `Timer.PauseWhileIdle` | client/src/hooks/use-timer.ts:79-84 | Pause on the initial idle record gives a paused timer that is not active. |
| `Timer.DefaultSessionRuns` | client/src/hooks/use-timer.ts:12-37 | Starting the default session and letting 1499 ticks pass leaves 1 second and no completion; 1500 ticks complete it and leave it idle. |
| `Timer.PausedSessionKeepsLength` | client/src/hooks/use-timer.ts:57-101 | A 10-minute session started, ticked five times and paused has 595 of 600 seconds left, is active and paused, and refuses a new length of 5 minutes. |
| `Timer.TimerHook.constructor` | client/src/hooks/use-timer.ts:12-18 | The hook's fields start as the initial record. |
| `Timer.TimerHook.UpdateRemainingTime` | client/src/hooks/use-timer.ts:22-37 | Called only while running, the tick method leaves the fields equal to `Tick` of the old record. |
| `Timer.TimerHook.SetSessionMinutes` | client/src/hooks/use-timer.ts:57-69 | The setter method leaves the fields equal to `WithSessionMinutes` of the old record. |
| `Timer.TimerHook.StartTimer` | client/src/hooks/use-timer.ts:71-77 | The fields become `Start` of the old record. |
| `Timer.TimerHook.PauseTimer` | client/src/hooks/use-timer.ts:79-84 | The fields become `Pause` of the old record. |
| `Timer.TimerHook.ResetTimer` | client/src/hooks/use-timer.ts:86-93 | The fields become `Reset` of the old record. |
| `Timer.TimerHook.ToggleTimer` | client/src/hooks/use-timer.ts:95-101 | The fields become `Toggle` of the old record. |
| `Digits.DecimalString` | client/src/hooks/use-timer.ts:106 | `toString` of a non-negative integer is a non-empty digit string without a leading zero, of one digit exactly below 10 and at most two below 100. |
| `Digits.PadStart2` | client/src/hooks/use-timer.ts:106 | `padStart(2, '0')` keeps the string as its suffix and fills to length two with zeros, leaving longer strings alone. |
| `Digits.DecimalRoundTrip` | client/src/hooks/use-timer.ts:106 | Reading back the printed digits gives the number printed. |
| `Digits.PaddedRoundTrip` | client/src/hooks/use-timer.ts:106 | Reading back the zero-padded digits gives the number printed. |
| `CircularTimer.Rem360` | client/src/components/timer/circular-timer.tsx:38 | JavaScript `x % 360` lies strictly between -360 and 360, has the sign of `x`, is `x` itself when already in that range, and differs from `x` by whole turns. |
| `CircularTimer.Round` | client/src/components/timer/circular-timer.tsx:46 | `Math.round` gives the integer within half a unit, halves rounding up. |
| `CircularTimer.NormalizeAngle` | client/src/components/timer/circular-timer.tsx:37-39 | The normalised angle lies in [0, 360) and differs from the quarter-turned `atan2` angle by whole turns. |
| `CircularTimer.NormalizeAtan2Range` | client/src/components/timer/circular-timer.tsx:37-39 | On (-180, 180] the normalisation adds 90 degrees, or 450 below -90. |
| `CircularTimer.MinutesFromAngle` | client/src/components/timer/circular-timer.tsx:44-48 | Any angle whatsoever yields a length in [1, 60]. |
| `CircularTimer.HandleAngle` | client/src/components/timer/circular-timer.tsx:87 | The handle for m minutes is drawn 6·(60 − m) degrees clockwise from twelve o'clock, in [0, 360) for m in 1..60. |
| `CircularTimer.SnapsToHandle` | client/src/components/timer/circular-timer.tsx:44-48 | For m in 1..59, every angle in (handle − 3°, handle + 3°] selects m. |
| `CircularTimer.HandleRoundTrip` | client/src/components/timer/circular-timer.tsx:87 | The handle angle for m in 1..59 maps back to m; for 60 it is 0 and maps to 1. |
| `CircularTimer.SixtyWindow` | client/src/components/timer/circular-timer.tsx:44-48 | Every angle in (0°, 3°], just clockwise of twelve o'clock, selects 60 minutes. |
| `CircularTimer.SampleAngles` | client/src/components/timer/circular-timer.tsx:44-48 | Angle 0 selects 1 minute, 180 selects 30, 359 selects 1. |
| `CircularTimer.MouseDown` | client/src/components/timer/circular-timer.tsx:50-59 | A press asks for a change exactly when the timer is not active, and then for a length in [1, 60]. |
| `CircularTimer.MouseMove` | client/src/components/timer/circular-timer.tsx:61-67 | A move asks for a change exactly during a drag on an inactive timer, and then for the same length a press there would. |
| `CircularTimer.ApplyDrag` | client/src/pages/timer.tsx:117 | A pointer update handed to the session setter changes nothing when ignored or while the timer is active; otherwise the session becomes the clamped minutes with the full length on the clock and the flags kept; the invariant is kept. |
| `CircularTimer.DragSetsSession` | client/src/components/timer/circular-timer.tsx:50-67 | Fed into the setter, a press on an idle timer sets exactly the minutes under the pointer and keeps the invariant; presses and moves while active change nothing. |
| `Audio.AmbientSound` | client/src/hooks/use-audio.ts:48-73 | The ambient sound is four oscillators at 55, 73, 110 and 147 Hz, in that order, with gains 0.12, 0.10, 0.08, 0.06. |
| `Audio.StatusText` | client/src/hooks/use-audio.ts:114-119 | "Audio unavailable" exactly when not loaded; "Audio disabled" exactly when loaded and disabled; "Playing ambient focus sound" exactly when loaded, enabled and playing; "Ambient sound ready" otherwise. |
| `Audio.AudioHook.constructor` | client/src/hooks/use-audio.ts:4-26 | After mounting the hook is enabled, silent, with no oscillators, and loaded exactly when the audio context could be created. |
| `Audio.AudioHook.StopOscillators` | client/src/hooks/use-audio.ts:36-46 | The oscillator list ends empty; the flags are untouched. |
| `Audio.AudioHook.CreateAmbientSound` | client/src/hooks/use-audio.ts:48-73 | With a context, the list becomes the four ambient voices; without one nothing changes. |
| `Audio.AudioHook.Play` | client/src/hooks/use-audio.ts:75-91 | Unless enabled, loaded and holding a context nothing changes; otherwise exactly the four ambient voices run and the hook is playing; the hook's invariant is kept. |
| `Audio.AudioHook.Pause` | client/src/hooks/use-audio.ts:93-96 | No oscillators and not playing; the other flags unchanged. |
| `Audio.AudioHook.Stop` | client/src/hooks/use-audio.ts:98-101 | The same effect as pause. |
| `Audio.AudioHook.ToggleEnabled` | client/src/hooks/use-audio.ts:103-112 | The enabled flag flips; disabling empties the list and stops playing, enabling leaves playback as it was; the invariant is kept. |
| `TimerPage.ShouldPlayAudio` | client/src/pages/timer.tsx:35-41 | Sound is asked for exactly when the page reads "Stay Focused!" and audio is enabled, and only while one more interval firing would change the timer. |
| `TimerPage.TimeOfDay` | client/src/pages/timer.tsx:60-65 | Morning text exactly before 12, afternoon text exactly from 12 to before 17, evening text exactly from 17. |
| `TimerPage.StatusText` | client/src/pages/timer.tsx:67-71 | "Ready to Focus" exactly when not active, "Paused" exactly when active and paused, "Stay Focused!" exactly when running. |
| `TimerPage.SessionInfo` | client/src/pages/timer.tsx:73-77 | Not active: the set-length prompt; paused: "Session paused"; running: digits then " minutes remaining", the digits reading back as the whole minutes left. |
| `TimerPage.IncreaseMinutes` | client/src/pages/timer.tsx:79-81 | "+" does nothing while active; when idle it adds a minute, staying at 60 at the top, with the full new length on the clock and the timer left idle. |
| `TimerPage.DecreaseMinutes` | client/src/pages/timer.tsx:83-85 | "−" does nothing while active; when idle it removes a minute, staying at 1 at the bottom, with the full new length on the clock and the timer left idle. |
| `TimerPage.IncreaseThenDecrease` | client/src/pages/timer.tsx:79-85 | Below 60 minutes, "+" then "−" gives back the idle record with its full length on the clock. |
| `TimerPage.FocusPage.constructor` | client/src/pages/timer.tsx:11-32 | The page starts with the initial timer record, enabled silent audio, and no toasts. |
| `TimerPage.FocusPage.SyncAudio` | client/src/pages/timer.tsx:35-41 | After the audio effect, sound is playing exactly when the countdown runs and audio is enabled and loaded. |
| `TimerPage.FocusPage.OnCompletion` | client/src/pages/timer.tsx:44-52 | On a completed timer the sound stops and exactly one completion toast is appended; otherwise nothing changes. |
| `TimerPage.FocusPage.HandleReset` | client/src/pages/timer.tsx:55-58 | The timer becomes `Reset` of its old record and the sound is stopped. |
| `TimerPage.FocusPage.HandleIncreaseMinutes` | client/src/pages/timer.tsx:79-81 | The timer becomes `IncreaseMinutes` of its old record; the invariants hold. |
| `TimerPage.FocusPage.HandleDecreaseMinutes` | client/src/pages/timer.tsx:83-85 | The timer becomes `DecreaseMinutes` of its old record; the invariants hold. |

## Left out

- The interval itself (`setInterval`/`clearInterval` and effect cleanup): the tick is an operation that requires a running timer, and `Timer.Advance` counts its firings; timing and cancellation are not modelled.
- React's rendering model: state captured by closures at render time, batching of `setState`, and when effects run (on dependency changes). Every operation acts on the current state, and the page's effects are methods the page calls.
- Non-integer, NaN or infinite numbers: `setSessionMinutes` takes an integer (its callers only pass integers), and angles are finite reals, so the NaN case of `minutes || 1` does not arise.
- Timer.Progress: divides exactly over the reals, where `getProgress` divides in floating point.
- The early return of `getAngleFromPoint` giving angle 0 when the drawing is not mounted yet; the model always has an angle.
- Trigonometry and geometry: `Math.atan2` (its result in degrees is an input), the handle's `cos`/`sin` coordinates, and the ring's circumference and stroke offset.
- Pointer plumbing: `getBoundingClientRect`, the document-level listeners, the `isDragging` state and `handleMouseUp`; `isDragging` is a parameter of `CircularTimer.MouseMove`.
- The Web Audio API: creating the context and gain nodes (a boolean `supported` stands for whether that throws), the per-node `stop()`/`disconnect()` calls whose errors are swallowed, `resume()`, and closing the context on unmount. Gains are exact thousandths rather than floating point.
- Audio.AudioHook.Play: only the synchronous success path is modelled; a rejected `resume()` (caught and logged, state unchanged) is not.
- The clock read by `getTimeOfDay`: the hour is a parameter of `TimerPage.TimeOfDay`.
- Toast delivery, console logging, icons and all rendering; `timer-controls.tsx` and `audio-manager.tsx` only choose icons and lay out buttons.
