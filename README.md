# ProductivityTimer countdown core, in Dafny

This project models the core of ProductivityTimer, a p5.js countdown timer set by dragging a rotary dial. It covers two parts:

- **The countdown timer** (`timer.js`, the `Timer` class). It has five fields: `name`, `startTime`, `duration`, `isRunning` and `remainingTime`. Its methods are start, pause, resume, reset and `update`. The update recomputes the remaining time from the wall-clock stamp of the last start or resume; it does not decrement a counter. No caller of `update` appears in `sketch.js` (see "## Left out"). `display` splits the remaining time into zero-padded hours, minutes and seconds.
- **The sketch's event handlers** (`sketch.js`) that set and drive the timer:
  - a press arms a drag;
  - each drag move adds or takes time, by the pointer's speed, in a direction given by comparing the pointer angle with the dial's angle;
  - the release rounds the time to the nearest 15 seconds;
  - the button handlers wrap the timer's transitions and keep `totalTime` and `timerDone` in step;
  - hover tracking and the focus handlers clear the drag state.

Files:

- `timer.dfy` (module `Timers`): a `TimerData` value with one pure function per transition, plus the lemmas about them. The `Timer` class changes its fields in place; each of its methods is proved to leave `Data()` equal to the transition function applied to the old state.
- `sketch.dfy` (module `Sketch`): the drag rules as pure functions with their own contracts. The `Session` class holds the sketch's module-level state (`timer`, `totalTime`, `timerDone`, hover flags, `dial.angle`, the previous pointer sample, `mouseSpeed`, `mouseDown`). Its handler methods are specified in terms of those functions.
- `clock_text.dfy` (module `ClockText`): the h/m/s split of `display`, `padNumber`, and how JavaScript writes a whole number below 10^21 as text. A decimal parse is the inverse of that text.
- `js_numbers.dfy` (module `JsNumbers`): the JavaScript number operations the core relies on. These are division (with its infinities and NaN), `Math.floor`, `Math.round`, truncation, `%`, p5's `constrain`, and a number type with NaN and the infinities.
- `wrappers.dfy` (module `Wrappers`): `Option`, for JavaScript's `null`/`undefined`.

Inputs:

- Clocks are parameters: `now` stands for `Date.now()` in `Timers`, and for `millis()` or `Date.now()` in `Sketch`.
- The pointer angle (`-atan2(...)`) and the distance moved (`sqrt(dx*dx + dy*dy)`) are parameters of the drag handler.
- What the name prompt returns is a parameter of the press handler.

Numbers:

- JavaScript numbers are modelled as mathematical reals.
- Infinity and NaN appear only where the source meets them: in the pointer speed, `distance / timeElapsed`.

Behaviour of the code worth stating plainly:

- **A zero time gap is not read as speed 0.** Only NaN is replaced (`isNaN`, sketch.js:376). When no time passed but the pointer moved, the speed is `Infinity`, and the move adjusts by the full 120000 ms (`PointerSpeed`, `TimeAdjustment`).
- **The `Timer` methods have no guards.** `startTimer`, `pauseTimer` and `resumeTimer` (timer.js:20-38) run in any state. The only guards are the enabled or disabled buttons, which are not modelled.
- **There is no expired flag.** The timer has `isRunning` only: a timer that ran out is a stopped one with `remainingTime == 0` and `duration != 0` (timer.js:54-57, predicate `Timers.Expired`).
- **`pauseTimer` does not recompute the remaining time first.** It only clears `isRunning` (timer.js:28-31).
- **The total time lives in the sketch.** It is the sketch variable `totalTime` (sketch.js:16, 300-312), not a timer field.
- **The angle comparison is kept as written.** It does not account for the jump between pi and -pi. `CrossingPiAddsTime` shows the consequence: a short move across that boundary adds time where the same move elsewhere would take it off.

## Model

| member | source | states |
|---|---|---|
| `Timers.Timer.constructor` | timer.js:4-10 | a new timer has an empty name, start stamp 0, duration 0, is stopped and has 0 ms left |
| `Timers.Timer.LoadTimer` | timer.js:12-18 | loading copies all five saved fields, and nothing else is kept |
| `Timers.Timer.StartTimer` | timer.js:20-26 | start sets the name (the default name when it is omitted), the start stamp to `now`, the duration to `seconds * 1000` with the same remaining time, and runs the timer |
| `Timers.Timer.PauseTimer` | timer.js:28-31 | pause clears only the running flag |
| `Timers.Timer.ResumeTimer` | timer.js:33-38 | resume makes the time left the new duration, counted from a start stamp of `now`, and runs the timer |
| `Timers.Timer.ResetTimer` | timer.js:40-47 | reset clears the start stamp, duration and remaining time and stops the timer; the name is kept |
| `Timers.Timer.Update` | timer.js:49-59 | the in-place update leaves exactly the state `Updated` describes |
| `Timers.Paused` | timer.js:28-31 | a paused timer is stopped and differs from the old state in the running flag alone |
| `Timers.Reset` | timer.js:40-47 | from any state, reset gives a fresh timer with the old name; it is not expired, and updating it at any instant changes nothing |
| `Timers.Updated` | timer.js:49-59 | a stopped timer is untouched; a running one gets `max(duration - (now - startTime), 0)` left, never negative and never above its duration once the clock has passed the start; it stays running exactly while that difference is positive; a non-zero duration that ran out ends expired; name, stamp and duration never change |
| `Timers.UpdateIdempotent` | timer.js:49-59 | updating twice at the same instant gives the state of one update |
| `Timers.FramesDoNotDrift` | timer.js:49-59 | updating at every frame of a run that goes forward in time gives the same state as one update at the last frame, so however often `update` were called, the countdown could not drift |
| `Timers.StartThenUpdate` | timer.js:20-57 | a timer started with a positive number of seconds and updated at once is running with `seconds * 1000` ms left |
| `Timers.StartRunsOut` | timer.js:20-57 | once the whole duration has passed on the clock, the next update finds the timer expired with 0 left |
| `Timers.PauseResumeKeepsRemaining` | timer.js:28-59 | pausing, then resuming and updating at one instant, leaves the remaining time as it was; the timer runs again exactly when time was left |
| `Timers.PausedTimeNotCounted` | timer.js:28-59 | after a pause and a later resume, an update counts only the time since the resume |
| `ClockText.Split` | timer.js:67-69 | for a non-negative time, minutes and seconds lie in 0..59, and `h*3600000 + m*60000 + s*1000 <= r < that + 1000` |
| `ClockText.NatToString` | timer.js:86 | a whole number is written as its decimal digits, with no leading zero; one digit exactly below 10, two from 10 to 99 |
| `ClockText.NumberToString` | timer.js:86 | a negative number is a minus sign and the digits of its magnitude; a non-negative one is digits only |
| `ClockText.ParseNatToString` | timer.js:86 | reading the decimal text of a number back gives the number |
| `ClockText.PadNumber` | timer.js:85-87 | padding gives `"0"` and the digit for 0..9, two characters below 100, the plain decimal text from 10 on, and always text that reads back as the number |
| `ClockText.Clock` | timer.js:67-82 | below 100 hours the countdown text is eight characters, `HH:MM:SS` |
| `ClockText.ClockRoundTrip` | timer.js:67-82 | below 100 hours the countdown text reads back as exactly the hours, minutes and seconds of the split |
| `JsNumbers.Divide` | sketch.js:375 | JavaScript division: finite exactly when the divisor is not 0, and then times the divisor gives the dividend back; `0/0` is NaN; another number over 0 is the infinity of its sign |
| `JsNumbers.Constrain` | sketch.js:394 | p5's `constrain` lands in `[low, high]`, keeps a value already inside, and takes the nearer bound otherwise |
| `JsNumbers.Round` | sketch.js:417 | `Math.round` is within half of its argument, with halves rounded up |
| `Sketch.PointerSpeed` | sketch.js:370-378 | the speed is never NaN; it is distance over time when time passed, `Infinity` when the pointer moved in no time, and 0 when neither moved |
| `Sketch.TimeAdjustment` | sketch.js:379-380 | one move's adjustment lies in `[0, 120000]` ms; it is the full 120000 for an infinite speed or a finite one with `speed * 60000 > 120000`, `speed * 60000` when that fits, and 0 for a speed that is not positive |
| `Sketch.RotationDirection` | sketch.js:383-392 | the direction is 2 exactly when the new angle is below the dial's, -2 exactly when above, and 0 exactly when the angles are equal |
| `Sketch.DraggedTime` | sketch.js:383-394 | after a move the time lies in `[0, MAX_TIME]`, whatever the time before and the adjustment |
| `Sketch.DraggedTimeDirection` | sketch.js:383-394 | a move to a smaller angle adds the adjustment (capped at `MAX_TIME`), a move to a larger one takes it off (floored at 0), and equal angles only clamp, so they leave an in-range time alone |
| `Sketch.DragMove` | sketch.js:367-404 | one move's speed is distance over elapsed time with NaN read as 0; the time moves as `DraggedTime` says with that speed's adjustment and ends in `[0, MAX_TIME]`; equal angles leave an in-range time alone; the dial always ends at the new angle, because it skips the update only when the angles are already equal |
| `Sketch.CrossingPiAddsTime` | sketch.js:384-392 | the plain comparison treats a move across the pi / -pi boundary like a move to a smaller angle and adds time |
| `Sketch.RoundToStep` | sketch.js:416-417 | the rounded time is a whole number of 15 s steps, in `(r - 7500, r + 7500]` (a tie rounds up), and stays in `[0, MAX_TIME]` when `r` is in it |
| `Sketch.RoundToStepUnique` | sketch.js:417 | any multiple of 15000 in `(r - 7500, r + 7500]` is the rounded time, so the rounding is the nearest step |
| `Sketch.RoundToStepIdempotent` | sketch.js:417 | rounding a rounded time changes nothing |
| `Sketch.TwoMinuteDrag` | sketch.js:375-417 | a 200-pixel move in 100 ms from angle 0 to -0.5 on an unset dial adds exactly 120000 ms, and the release keeps it |
| `Sketch.Session.constructor` | sketch.js:84-99 | after setup, the timer is a fresh one named "Untitled Timer", or the saved timer when there is one; a saved total time is used only when it parsed to a non-zero number; no drag, hover or pointer sample is pending |
| `Sketch.Session.CheckHover` | sketch.js:475-504 | the title is highlighted exactly over the title band of a timer whose start stamp is 0 (never started, or reset), the dial exactly over its area while the timer is stopped, and never both |
| `Sketch.Session.MousePressed` | sketch.js:431-468 | a press on the title band of a timer whose start stamp is 0 (never started, or reset) sets the name to a non-empty prompt answer, or to "Untitled Timer", and changes no drag state; any other press arms a drag exactly over the dial of a stopped timer of duration 0 and records the pointer sample; no other timer field changes |
| `Sketch.Session.MouseDragged` | sketch.js:361-409 | with no drag armed nothing changes; otherwise the time, the dial angle and the speed become what `DragMove` gives for the time elapsed since the last sample, the time ends in `[0, MAX_TIME]`, the new sample is recorded, and nothing else of the timer changes |
| `Sketch.Session.MouseReleased` | sketch.js:411-429 | with no drag armed nothing changes; otherwise the time is rounded to the nearest 15 s (staying in range), and the dial angle, drag flag, speed and pointer sample are cleared |
| `Sketch.Session.StartTimer` | sketch.js:310-319 | starting from the dial makes the duration and `totalTime` equal the time that was set, and keeps the name |
| `Sketch.Session.PauseTimer` | sketch.js:286-291 | the Pause button pauses the timer |
| `Sketch.Session.ResumeTimer` | sketch.js:293-298 | the Resume button resumes the timer at `now` |
| `Sketch.Session.ResetTimer` | sketch.js:300-308 | the Reset button resets the timer, sets `totalTime` to 0 and clears `timerDone`; the drag state is untouched |
| `Sketch.Session.FocusChanged` | sketch.js:507-516 | gaining or losing window focus abandons any drag and clears both highlights |

## Left out

- particle.js, dial.js and modal.js: decorative geometry, drawing and DOM plumbing. The particle calls in `draw` and `mouseDragged` are dropped; of the dial, only `dial.angle` is kept, as `Session.dialAngle`.
- Rendering and UI: `draw`, `drawNoiseBackground`, the `angleSpeed` assignments that drive it, `styleButton`, `decreaseAlpha`, the button creation in `setup`, and the drawing half of `display`. Each `styleButton` call inside the handlers is dropped too.
- The Pause button's label and handler swap (`pauseButton.html(...)` and `pauseButton.mousePressed(pauseTimer | resumeTimer)`, sketch.js:288-289, 295-296, 315-316): DOM wiring that decides which wrapper a click reaches, not timer state.
- `getCurrentSunlight`: geolocation and a network fetch.
- Persistence: every `localStorage` read, write and removal, and the JSON encoding. The saved values are inputs of `Session.constructor`; `loadTimer` is a field copy.
- Floating point: numbers are reals, so rounding error is not modelled. For example, `remainingTime / 1000 * 1000` in the Start handler is exact here. Infinity and NaN are not modelled in the timer's fields.
- `Sketch.Session.MouseDragged`: `distance` is an input and is not tied to the recorded sample's coordinates (that needs `sqrt`). The two `millis()` readings of one move are taken as the same instant `now`.
- `Sketch.Session.CheckHover`: the `dial == null` early exit is not modelled. The session exists only once `setup` has created the dial.
- `mouseMoved` only calls `checkHover` and has no member of its own.
- `Sketch.Session.MousePressed`: the model proves that a drag is armed only for a stopped timer of duration 0, and that a move or release without an armed drag changes nothing. It does not prove that a button handler cannot run between a press and its release, because that depends on DOM event ordering.
- Nothing in `sketch.js` calls `timer.update()`: `draw` (sketch.js:179-249) calls only `timer.display`, and `display` (timer.js:61-83) does not call `update`. In this source a running countdown is therefore never recomputed and expiry is never detected. The model proves what `Timers.Timer.Update` would do when it is called, and has no per-frame caller.
- `timerDone` is never set to true in `sketch.js`; the model has only the reset that clears it.
