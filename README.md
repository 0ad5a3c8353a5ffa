# Reiki timer session engine, in Dafny

A model of the session engine of the Reiki timer page (`script.js`). The user
picks a duration per hand position, from 0 to 10 minutes plus 0 to 50 seconds
in steps of ten. The session then walks through twelve fixed positions. A
one-second interval counts down each one and rings a bell at each change. The
user can pause, skip, reset or go back home.

Files:

- `positions.dfy`: the twelve position names (`Positions.Names`, `Count`, `Last`).
- `decimal.dfy`: decimal numerals, as `${n}` and `padStart(2, '0')` produce
  them for the integers the page shows (all far below 10^21, where
  JavaScript would switch to exponent notation), and the reader that
  inverts them.
- `display.dfy`: the integer parts of `updateDisplay`. These are the `m:ss`
  countdown text, the `i / N` label, and the progress bar and circle as exact
  ratios. Each text has a parser, and a round-trip lemma ties the two.
- `engine.dfy`: every module-level variable the handlers touch, as one
  `State` record. It adds three abstract outputs: `live` (the interval handles
  still scheduled), `bells` (bells rung) and `screen` (which screen is shown).
  Each handler is a pure transition. `Inv` is the invariant that holds between
  events.
- `runs.dfy`: facts about sequences of events. A session lasts exactly 12·T
  ticks. Twelve skips complete it with eleven bells. The pickers can never
  produce a rejected start.
- `script.dfy`: class `ReikiTimer`. Its fields are the script's `let`
  variables and its methods are the handlers, updating them in place. The
  handler methods (`AdjustMinutes`, `AdjustSeconds`, `StartSession`, `Tick`,
  `PauseTimer`, `SkipPosition`, `ResetSession`, `BackToHome`,
  `ResetToSetup`) require and keep `Valid()`. The other methods
  (`ValidateTime`, `SetInterval`, `ClearInterval`, `StartTimer`,
  `CompletePosition`, `CompleteSession`) are helpers that run only inside a
  handler, so they may pass through states where `Valid()` does not hold.
  `SetInterval` stands for the browser's `setInterval` and states its own
  effect. Every other method is proved to perform exactly the matching
  `Engine` transition.

Conventions of the model:

- Interval handles are positive naturals and `timerInterval == 0` stands for
  `null`. So `if (timerInterval)` in `startTimer` holds for every real handle.
- `confirm()` answers are `confirmed: bool` parameters. The rejection `alert`
  of `startSession` is the `started == false` result.
- A bell is one increment of `bells`.
- The button handlers whose buttons sit on one screen require that screen.
  Skip, reset and home are on the timer screen. Start is on the setup
  screen. Back-to-setup is on the completion screen. The picker handlers
  `AdjustMinutes` and `AdjustSeconds` and the pause handler `PauseTimer`
  carry no screen precondition. They keep `Valid()` on every screen. The
  interval callback `Tick` requires that its interval is still live.

Behaviours of `script.js` worth knowing:

- A rejected start does not leave the state unchanged. `currentPosition` and
  `totalTime` are already overwritten (`Engine.StartSession`). `Runs.PickersNeverReject`
  shows this start is never rejected when the duration comes from the pickers.
- Skipping the last position rings no bell and does not move the index
  (`Engine.Skip`). So twelve skips ring eleven bells.
- The paused flag can still be set on the completion screen, after a skip on
  the last position while paused (`Runs.PausedCompletion`).
- Between events a running session has `1 <= timeRemaining <= totalTime`.
  The value 0 occurs only inside the callback, just before the advance.

## Model

| member | source | states |
|---|---|---|
| `Positions.CountIsLength` | script.js:2-15 | there are exactly twelve positions |
| `Decimal.Show` | script.js:202-204 | the numeral has only digits, no leading zero, and is one character exactly when the number is below ten |
| `Decimal.ValueOfShow` | script.js:202-204 | reading a numeral back gives the number it was written from |
| `Decimal.ShowInjective` | script.js:202-204 | different numbers never print the same numeral |
| `Decimal.PadTwo` | script.js:203-204 | `padStart(2, '0')` gives all digits, exactly two for numbers below 100, and the plain numeral from ten up |
| `Decimal.ValueOfPadTwo` | script.js:203-204 | the padded seconds read back as the seconds |
| `Display.TimeText` | script.js:202-204 | the text before the colon is the numeral of `floor(t / 60)` without leading zeros, the two digits after it read as `t % 60`; four characters under ten minutes |
| `Display.TimeTextRoundTrip` | script.js:202-204 | the parser, which accepts only a numeral, a colon and two digits below 60, reads the `m:ss` text back as the remaining seconds |
| `Display.TimeTextInjective` | script.js:202-204 | two different remaining times never show the same text |
| `Display.PositionLabel` | script.js:198 | the `i / N` label is at least five characters |
| `Display.PositionLabelRoundTrip` | script.js:198 | the label reads back as (index + 1, 12), through a parser that rejects leading zeros |
| `Display.OverallProgress` | script.js:211 | for a position in range and 0 <= remaining <= total, the bar's fraction is in [0, 1] |
| `Display.CircleProgress` | script.js:215 | the circle's fraction has denominator `totalTime` and numerator `totalTime - timeRemaining` (elapsed plus remaining is the whole); it is in [0, 1], 0 at a fresh position and 1 at zero remaining |
| `Display.OverallMonotone` | script.js:211 | on a later position the bar is never lower, whatever the two countdowns; it is equal only from a run-out position to the fresh start of the next |
| `Display.Render` | script.js:196-215 | the label, name, time text and ratios of one refresh: each text reads back to its counter and both ratios are in [0, 1] |
| `Engine.InitialIsValid` | script.js:17-24 | the initial values satisfy the invariant, on the setup screen |
| `Engine.ValidateTime` | script.js:123-132 | a zero total becomes ten seconds and any other total is untouched, so the total is never zero afterwards |
| `Engine.AdjustMinutes` | script.js:104-108 | minutes stay in [0, 10], equal to minutes + delta when that is in range and clamped otherwise; seconds become 10 exactly when the new total would be zero; only the pickers change |
| `Engine.AdjustSeconds` | script.js:111-120 | seconds stay in [0, 59]; a sum of 60 or more wraps to 0, or to 10 when minutes are 0; a negative sum wraps to 50; an in-range sum is kept unless the total would be zero, when it becomes 10; only the seconds change |
| `Engine.ClearInterval` | script.js:180 | the handle is no longer live, no other handle becomes live, and nothing else changes |
| `Engine.StartTimer` | script.js:178-183 | the held interval is cleared before a new handle is scheduled, so at most one interval is live afterwards when only the held interval was live before |
| `Engine.StartSession` | script.js:135-175 | position 0 and totalTime = minutes·60 + seconds in both outcomes; under ten seconds nothing else changes; otherwise a fresh running session with one live interval |
| `Engine.CompleteSession` | script.js:243-247 | the held interval is cleared and the completion screen is shown |
| `Engine.CompletePosition` | script.js:229-240 | the whole new state per branch: one bell and one position more; past the last position the held interval is cleared and the completion screen shown, otherwise the countdown restarts at the full duration; every other variable (handles included) is kept |
| `Engine.Countdown` | script.js:185 | exactly one second comes off the clock |
| `Engine.Tick` | script.js:183-192 | paused: no change; otherwise one second off and an advance at zero; the invariant is kept; bells grow with the position index |
| `Engine.Pause` | script.js:250-254 | only the paused flag flips, and the invariant is kept |
| `Engine.Skip` | script.js:257-266 | before the last position: bell, next position, full countdown; on the last: completion with no bell and no move |
| `Engine.Reset` | script.js:269-279 | confirmed: a fresh running session with one live interval, same duration and bells; unconfirmed: no change |
| `Engine.BackToHome` | script.js:289-297 | confirmed: setup screen, not paused, interval cleared, every other variable kept (pickers, duration, position, countdown, bells); unconfirmed: no change |
| `Engine.ResetToSetup` | script.js:282-286 | setup screen with the interval cleared and every other variable kept, the paused flag included |
| `Runs.PausedTicks` | script.js:184-191 | any number of ticks while paused changes nothing |
| `Runs.TickStep` | script.js:183-192 | a tick that does not end the session keeps it running and advances the elapsed time by one |
| `Runs.LastTick` | script.js:229-247 | the ending tick happens on the last position with one second left; it rings the last bell, sets the index to 12 and clears the interval |
| `Runs.TicksAdvance` | script.js:183-192 | before the end, n ticks advance the elapsed time by exactly n, with one bell per position passed |
| `Runs.FullRun` | script.js:183-247 | from a fresh start with duration T and no pause, the session is running for 12·T ticks, complete at tick 12·T with 12 bells, index 12 and no interval |
| `Runs.RunEnds` | script.js:183-247 | the tick after 12·T - 1 elapsed seconds completes the session with 12 bells, index 12 and no interval |
| `Runs.CountdownProgress` | script.js:185-215 | the refresh inside a running tick is on a position in range, with the bar and the circle each one second further on, the circle over `totalTime` |
| `Runs.ProgressShownByTick` | script.js:183-211 | the refresh inside the k-th tick shows the bar at k / (12·T), on a position in range, reaching one on the last tick |
| `Runs.SessionFromStart` | script.js:135-247 | a start with the picked duration T runs exactly 12·T ticks and rings 12 bells |
| `Runs.SkipsAdvance` | script.js:257-262 | skips before the last position each ring one bell and move one position on |
| `Runs.TwelveSkips` | script.js:257-266 | twelve skips from the first position complete the session with eleven bells and index 11 |
| `Runs.PausedCompletion` | script.js:250-266 | a skip on the last position while paused completes with the paused flag still set |
| `Runs.PauseTwice` | script.js:250-251 | pausing twice restores every variable |
| `Runs.ResetThenRun` | script.js:269-279 | after a confirmed reset, 12·T unpaused ticks complete the session with 12 more bells |
| `Runs.PressKeepsPicked` | script.js:104-131 | one picker press keeps minutes in [0, 10], seconds a multiple of ten in [0, 50], and the total at least ten |
| `Runs.PressesKeepPicked` | script.js:104-131 | any sequence of picker presses keeps those bounds |
| `Runs.PickersNeverReject` | script.js:135-143 | after any picker presses from page load, the start is accepted: the under-ten rejection is unreachable |
| `Script.ReikiTimer.constructor` | script.js:17-24 | the page's initial values |
| `Script.ReikiTimer.AdjustMinutes` | script.js:104-108 | performs `Engine.AdjustMinutes` in place and keeps the invariant |
| `Script.ReikiTimer.AdjustSeconds` | script.js:111-120 | performs `Engine.AdjustSeconds` in place and keeps the invariant |
| `Script.ReikiTimer.ValidateTime` | script.js:123-132 | performs `Engine.ValidateTime` in place |
| `Script.ReikiTimer.SetInterval` | script.js:183 | returns the next handle, which becomes live |
| `Script.ReikiTimer.ClearInterval` | script.js:180 | removes the handle from the live intervals |
| `Script.ReikiTimer.StartTimer` | script.js:178-193 | performs `Engine.StartTimer` in place |
| `Script.ReikiTimer.StartSession` | script.js:135-175 | performs `Engine.StartSession` in place; `started` is true exactly when the duration is at least ten seconds |
| `Script.ReikiTimer.Tick` | script.js:183-192 | performs `Engine.Tick` in place and keeps the invariant |
| `Script.ReikiTimer.CompletePosition` | script.js:229-240 | performs `Engine.CompletePosition` in place |
| `Script.ReikiTimer.CompleteSession` | script.js:243-247 | performs `Engine.CompleteSession` in place |
| `Script.ReikiTimer.PauseTimer` | script.js:250-254 | performs `Engine.Pause` in place |
| `Script.ReikiTimer.SkipPosition` | script.js:257-266 | performs `Engine.Skip` in place and keeps the invariant |
| `Script.ReikiTimer.ResetSession` | script.js:269-279 | performs `Engine.Reset` in place and keeps the invariant |
| `Script.ReikiTimer.BackToHome` | script.js:289-297 | performs `Engine.BackToHome` in place and keeps the invariant |
| `Script.ReikiTimer.ResetToSetup` | script.js:282-286 | performs `Engine.ResetToSetup` in place and keeps the invariant |

## Left out

- Bell audio (`initBellAudio`, `initAudioContext`, `playBellSound`, and the silent play/pause unlock in `startSession`): browser media APIs and promises. A bell is only a count, and a failed playback still counts, as the source swallows the error.
- `flashScreen`: DOM styling, `setTimeout` and vibration.
- DOM writes: screen visibility is the `screen` enum. Pause-button text and element updates are not modelled. The methods do not record what `updateDisplay` wrote. `Display.Render` gives its integer content, and `Runs.ProgressShownByTick` says which state the tick's refresh reads.
- Circle stroke offsets (`Math.PI`) and the percentage string: floating point. Progress is kept as exact ratios.
- The one-second period of `setInterval`: wall-clock time. The callback is the explicit `Tick` method.
- `confirm` and `alert` dialogs: they become a boolean parameter and a boolean result.
- `openYouTubeMusic`: opens an external page.
- `Display.TimeText`: defined for non-negative times only. `Math.floor` and `%` on a negative time would print a minus sign. The invariant keeps the countdown at 0 or above whenever the display is refreshed.
- The page markup is not part of this model. The picker deltas it passes are assumed to be any step for minutes and ±10 for seconds (`Runs.Press`). Each handler's screen precondition stands for "the button is only visible there".
