/**
 * The sketch's event handlers that set and drive the timer: a press over the dial arms a
 * drag (only for a timer that was never started or has been reset), each drag move adds
 * or takes time depending on the pointer's angle and speed, and the release rounds the
 * time to the nearest 15 seconds. The button handlers wrap the Timer's transitions.
 *
 * The pointer angle (`-atan2(...)`), the distance moved (`sqrt(dx*dx + dy*dy)`) and the
 * clock readings (`millis()`, `Date.now()`) are inputs of the handlers.
 */
module Sketch {
  import opened Wrappers
  import opened JsNumbers
  import opened Timers

  /** The longest time the dial can be set to: 12 hours, in milliseconds. */
  const MAX_TIME: real := 43200000.0

  /** A release rounds the time to a multiple of this many milliseconds. */
  const ROUND_STEP: real := 15000.0

  /** A single drag move changes the time by at most this many milliseconds. */
  const MAX_ADJUSTMENT: real := 120000.0

  /** Milliseconds of adjustment per unit of pointer speed (pixels per millisecond). */
  const SPEED_FACTOR: real := 60000.0

  /** The name a cancelled or empty name prompt leaves. */
  const UNTITLED: string := "Untitled Timer"

  /** Where the pointer is, in canvas pixels. */
  datatype Pointer = Pointer(x: real, y: real)

  /** The canvas size in pixels. */
  datatype Canvas = Canvas(width: real, height: real)

  /** The last pointer sample of a drag: position and `millis()` reading. */
  datatype PointerSample = PointerSample(x: real, y: real, time: real)

  /** The band at the top of the canvas where the timer's name is shown. */
  predicate OverTitleArea(p: Pointer, c: Canvas) {
    0.0 < p.x < c.width && 0.0 < p.y < c.height / 7.0 + 10.0
  }

  /** The area below the title band where the dial is dragged. */
  predicate OverDialArea(p: Pointer, c: Canvas) {
    0.0 < p.x < c.width && c.height / 7.0 + 10.0 < p.y < c.height - 25.0
  }

  /**
   * The pointer speed of a drag move, `distance / timeElapsed`, with NaN replaced by 0.
   * Only NaN is replaced: a move with no time elapsed and a non-zero distance has an
   * infinite speed.
   */
  function PointerSpeed(distance: real, elapsed: real): (s: JsNumber)
    ensures !s.NaN?
    ensures elapsed != 0.0 ==> s == Finite(distance / elapsed)
    ensures elapsed == 0.0 && distance > 0.0 ==> s.PosInfinity?
    ensures elapsed == 0.0 && distance == 0.0 ==> s == Finite(0.0)
  {
    var speed := Divide(distance, elapsed);
    if speed.NaN? then Finite(0.0) else speed
  }

  /**
   * The time one move adds or takes: `constrain(speed * 60000, 0, 120000)`. It is never
   * negative and never above two minutes; an infinite speed gives the full two minutes.
   */
  function TimeAdjustment(speed: JsNumber): (a: real)
    requires !speed.NaN?
    ensures 0.0 <= a <= MAX_ADJUSTMENT
    ensures speed.PosInfinity? ==> a == MAX_ADJUSTMENT
    ensures speed.NegInfinity? ==> a == 0.0
    ensures speed.Finite? && 0.0 <= speed.value * SPEED_FACTOR <= MAX_ADJUSTMENT ==>
              a == speed.value * SPEED_FACTOR
    ensures speed.Finite? && speed.value <= 0.0 ==> a == 0.0
    ensures speed.Finite? && speed.value * SPEED_FACTOR > MAX_ADJUSTMENT ==> a == MAX_ADJUSTMENT
  {
    ConstrainNumber(Scale(speed, SPEED_FACTOR), 0.0, MAX_ADJUSTMENT)
  }

  /**
   * The direction code of a move: 2 when the new angle is below the dial's angle, -2 when
   * it is above, 0 when they are equal.
   */
  function RotationDirection(angle: real, dialAngle: real): (d: int)
    ensures d == 2 <==> angle < dialAngle
    ensures d == -2 <==> angle > dialAngle
    ensures d == 0 <==> angle == dialAngle
  {
    if angle < dialAngle then 2 else if angle > dialAngle then -2 else 0
  }

  /**
   * The remaining time after a move: the adjustment is added when the new angle is below
   * the dial's angle and taken off when it is above, and the result is clamped to
   * `[0, MAX_TIME]`. The angles are compared as plain numbers.
   */
  function DraggedTime(remaining: real, angle: real, dialAngle: real, adjustment: real): (r: real)
    ensures 0.0 <= r <= MAX_TIME
  {
    var moved :=
      if angle < dialAngle then remaining + adjustment
      else if angle > dialAngle then remaining - adjustment
      else remaining;
    Constrain(moved, 0.0, MAX_TIME)
  }

  /**
   * The direction rule: a move to a smaller angle adds the adjustment (up to `MAX_TIME`),
   * a move to a larger angle takes it off (down to 0), and equal angles only clamp.
   */
  lemma DraggedTimeDirection(remaining: real, angle: real, dialAngle: real, adjustment: real)
    ensures var r := DraggedTime(remaining, angle, dialAngle, adjustment);
              (angle == dialAngle ==> r == Constrain(remaining, 0.0, MAX_TIME)) &&
              (0.0 <= remaining <= MAX_TIME && 0.0 <= adjustment ==>
              (angle < dialAngle ==>
                 remaining <= r == (if remaining + adjustment <= MAX_TIME then remaining + adjustment else MAX_TIME)) &&
              (angle > dialAngle ==>
                 r <= remaining && r == (if remaining - adjustment >= 0.0 then remaining - adjustment else 0.0)) &&
              (angle == dialAngle ==> r == remaining))
  {
  }

  /**
   * The dial's angle is compared with the new angle as plain numbers, so a drag that
   * crosses the boundary between pi and -pi (a short move in the direction that otherwise
   * takes time off) adds time.
   */
  lemma CrossingPiAddsTime(remaining: real, adjustment: real)
    requires 0.0 <= remaining && 0.0 < adjustment && remaining + adjustment <= MAX_TIME
    ensures DraggedTime(remaining, -3.14, 3.14, adjustment) == remaining + adjustment
    ensures DraggedTime(remaining, 3.13, 3.14, adjustment) == remaining + adjustment
    ensures remaining > 0.0 ==> DraggedTime(remaining, 3.14, 3.13, adjustment) < remaining
  {
  }

  /** Whether `q` is a whole number of rounding steps. */
  predicate IsStepMultiple(q: real) {
    (Floor(q / ROUND_STEP) as real) * ROUND_STEP == q
  }

  /**
   * The rounding on release, `Math.round(r / 15000) * 15000`: a whole number of steps, at
   * most half a step away, with a time exactly halfway between two steps rounded up, and
   * a time in `[0, MAX_TIME]` kept in it (12 hours is a whole number of steps).
   */
  function RoundToStep(r: real): (q: real)
    ensures IsStepMultiple(q)
    ensures r - ROUND_STEP / 2.0 < q <= r + ROUND_STEP / 2.0
    ensures 0.0 <= r <= MAX_TIME ==> 0.0 <= q <= MAX_TIME
  {
    var k := Round(r / ROUND_STEP);
    assert (k as real * ROUND_STEP) / ROUND_STEP == k as real;
    (k as real) * ROUND_STEP
  }

  /**
   * `RoundToStep` picks the only whole number of steps in `(r - 7500, r + 7500]`: any
   * multiple of the step in that window is the rounded time.
   */
  lemma {:induction false} RoundToStepUnique(r: real, k: int)
    requires r - ROUND_STEP / 2.0 < (k as real) * ROUND_STEP <= r + ROUND_STEP / 2.0
    ensures RoundToStep(r) == (k as real) * ROUND_STEP
  {
    var q := RoundToStep(r);
    var j := Floor(q / ROUND_STEP);
    assert (j as real) * ROUND_STEP == q;
    assert -1 < j - k < 1;
  }

  /** Rounding an already rounded time changes nothing. */
  lemma RoundToStepIdempotent(r: real)
    ensures RoundToStep(RoundToStep(r)) == RoundToStep(r)
  {
    var q := RoundToStep(r);
    RoundToStepUnique(q, Floor(q / ROUND_STEP));
  }

  /**
   * A drag from angle 0 to angle -0.5 that moves 200 pixels in 100 ms on a dial set to 0
   * adds two minutes, and the release keeps them.
   */
  lemma TwoMinuteDrag()
    ensures var speed := PointerSpeed(200.0, 100.0);
            var r := DraggedTime(0.0, -0.5, 0.0, TimeAdjustment(speed));
            r == 120000.0 && RoundToStep(r) == 120000.0
  {
    RoundToStepUnique(120000.0, 8);
  }

  /** What one drag move changes: the remaining time, the dial's angle and the pointer speed. */
  datatype DragState = DragState(remaining: real, dialAngle: real, speed: JsNumber)

  /**
   * One drag move to `angle` over `distance` pixels in `elapsed` milliseconds: the speed
   * sets the adjustment and the angles set its direction. The dial takes the new angle
   * only when the direction is not 0, but a direction of 0 means the angles are equal, so
   * either way the dial ends at the new angle.
   */
  function DragMove(s: DragState, angle: real, distance: real, elapsed: real): (t: DragState)
    ensures t.speed == PointerSpeed(distance, elapsed) && !t.speed.NaN?
    ensures t.remaining == DraggedTime(s.remaining, angle, s.dialAngle, TimeAdjustment(t.speed))
    ensures 0.0 <= t.remaining <= MAX_TIME
    ensures t.dialAngle == angle
    ensures angle == s.dialAngle && 0.0 <= s.remaining <= MAX_TIME ==> t.remaining == s.remaining
  {
    var speed := PointerSpeed(distance, elapsed);
    var remaining := DraggedTime(s.remaining, angle, s.dialAngle, TimeAdjustment(speed));
    DraggedTimeDirection(s.remaining, angle, s.dialAngle, TimeAdjustment(speed));
    DragState(remaining, if RotationDirection(angle, s.dialAngle) != 0 then angle else s.dialAngle, speed)
  }

  /** The sketch's state that the handlers share. */
  class Session {
    const timer: Timer
    /** The duration captured at the last start, for the dial's progress ring (`undefined` at first). */
    var totalTime: Option<real>
    var timerDone: bool
    var hoveringOverTitle: bool
    var hoveringOverDial: bool
    var isDialMoving: bool
    /** `dial.angle`: the angle of the last move that changed the time. */
    var dialAngle: real
    /** `previousMouseX`, `previousMouseY` and `previousTime`, all null or all set. */
    var previous: Option<PointerSample>
    var mouseSpeed: JsNumber
    var mouseDown: bool

    /** A drag in progress always has a pointer sample to measure the next move from. */
    predicate Valid()
      reads this
    {
      mouseDown ==> previous.Some?
    }

    /**
     * The state once `setup` has run: module-level defaults, a new timer named
     * "Untitled Timer" unless a saved timer is loaded, and a saved total time when it
     * parsed to a non-zero integer (`None` stands for a missing or unparsable value).
     */
    constructor (saved: Option<TimerData>, savedTotalTime: Option<int>)
      ensures Valid() && fresh(timer)
      ensures timer.Data() == if saved.Some? then saved.value else Fresh().(name := UNTITLED)
      ensures totalTime == if savedTotalTime.Some? && savedTotalTime.value != 0
                           then Some(savedTotalTime.value as real) else None
      ensures !timerDone && !hoveringOverTitle && !hoveringOverDial && !isDialMoving
      ensures dialAngle == 0.0 && previous == None && mouseSpeed == Finite(0.0) && !mouseDown
    {
      timer := new Timer();
      timerDone := false;
      hoveringOverTitle := false;
      hoveringOverDial := false;
      isDialMoving := false;
      dialAngle := 0.0;
      previous := None;
      mouseSpeed := Finite(0.0);
      mouseDown := false;
      totalTime := None;
      new;
      timer.name := UNTITLED;
      if saved.Some? {
        timer.LoadTimer(saved.value);
      }
      if savedTotalTime.Some? && savedTotalTime.value != 0 {
        totalTime := Some(savedTotalTime.value as real);
      }
    }

    /**
     * `checkHover`: over the title band of a timer whose start stamp is 0 (never started, or reset) only the title is
     * highlighted; otherwise the dial is highlighted when the pointer is over its area and
     * the timer is not running. The two are never highlighted together.
     */
    method CheckHover(p: Pointer, c: Canvas)
      modifies this`hoveringOverTitle, this`hoveringOverDial
      ensures hoveringOverTitle <==> OverTitleArea(p, c) && timer.startTime == 0.0
      ensures hoveringOverDial <==> OverDialArea(p, c) && !timer.isRunning
      ensures !(hoveringOverTitle && hoveringOverDial)
    {
      if OverTitleArea(p, c) && timer.startTime == 0.0 {
        hoveringOverTitle := true;
        hoveringOverDial := false;
        return;
      } else {
        hoveringOverTitle := false;
      }
      if OverDialArea(p, c) && !timer.isRunning {
        hoveringOverDial := true;
      } else {
        hoveringOverDial := false;
      }
    }

    /**
     * `mousePressed`. A press on the title band of a timer whose start stamp is 0 (never started, or reset) asks for a name
     * (`answer` is what the prompt returns, `None` for a cancelled prompt) and does nothing
     * else. Any other press starts a drag only over the dial of a stopped timer whose
     * duration is 0, and records the pointer sample.
     */
    method MousePressed(p: Pointer, c: Canvas, now: real, answer: Option<string>)
      requires Valid()
      modifies this, timer
      ensures Valid()
      ensures hoveringOverTitle <==> OverTitleArea(p, c) && timer.startTime == 0.0
      ensures hoveringOverDial <==> OverDialArea(p, c) && !timer.isRunning
      ensures timer.Data() == old(timer.Data()).(name := timer.name)
      ensures OverTitleArea(p, c) && old(timer.startTime) == 0.0 ==>
                timer.name == (if answer.Some? && answer.value != "" then answer.value else UNTITLED) &&
                mouseDown == old(mouseDown) && previous == old(previous)
      ensures !(OverTitleArea(p, c) && old(timer.startTime) == 0.0) ==>
                timer.name == old(timer.name) &&
                (mouseDown <==> OverDialArea(p, c) && !timer.isRunning && timer.duration == 0.0) &&
                previous == Some(PointerSample(p.x, p.y, now))
      ensures totalTime == old(totalTime) && timerDone == old(timerDone)
      ensures isDialMoving == old(isDialMoving) && dialAngle == old(dialAngle)
      ensures mouseSpeed == old(mouseSpeed)
    {
      CheckHover(p, c);
      if OverTitleArea(p, c) && timer.startTime == 0.0 {
        if answer.Some? && answer.value != "" {
          timer.name := answer.value;
        } else {
          timer.name := UNTITLED;
        }
        return;
      }
      mouseDown := OverDialArea(p, c) && !timer.isRunning && timer.duration == 0.0;
      previous := Some(PointerSample(p.x, p.y, now));
    }

    /**
     * `mouseDragged`, for a move to `p` at `angle` that covered `distance` pixels, at the
     * `millis()` reading `now`. Without a drag in progress nothing changes. Otherwise the
     * speed since the last sample sets the adjustment, the remaining time moves by it in the
     * direction the angles give and stays in `[0, MAX_TIME]`, the dial takes the new angle
     * only when the direction is not 0, and the new sample is recorded. Nothing else of the
     * timer changes.
     */
    method MouseDragged(p: Pointer, angle: real, distance: real, now: real)
      requires Valid()
      modifies this, timer
      ensures Valid()
      ensures !old(mouseDown) ==> unchanged(this) && unchanged(timer)
      ensures old(mouseDown) ==>
                var next := DragMove(DragState(old(timer.remainingTime), old(dialAngle), old(mouseSpeed)),
                                     angle, distance, now - old(previous).value.time);
                timer.Data() == old(timer.Data()).(remainingTime := next.remaining) &&
                dialAngle == next.dialAngle && mouseSpeed == next.speed &&
                isDialMoving && mouseDown && previous == Some(PointerSample(p.x, p.y, now))
      ensures old(mouseDown) ==> 0.0 <= timer.remainingTime <= MAX_TIME
      ensures totalTime == old(totalTime) && timerDone == old(timerDone)
      ensures hoveringOverTitle == old(hoveringOverTitle) && hoveringOverDial == old(hoveringOverDial)
    {
      if !mouseDown {
        return;
      }
      isDialMoving := true;
      if previous.Some? {
        var timeElapsed := now - previous.value.time;
        var next := DragMove(DragState(timer.remainingTime, dialAngle, mouseSpeed), angle, distance, timeElapsed);
        mouseSpeed := next.speed;
        timer.remainingTime := next.remaining;
        dialAngle := next.dialAngle;
      }
      previous := Some(PointerSample(p.x, p.y, now));
    }

    /**
     * `mouseReleased`: ends a drag in progress by rounding the remaining time to the nearest
     * 15 seconds and clearing the dial angle, the speed and the last sample.
     */
    method MouseReleased()
      requires Valid()
      modifies this, timer
      ensures Valid()
      ensures !old(mouseDown) ==> unchanged(this) && unchanged(timer)
      ensures old(mouseDown) ==>
                timer.Data() == old(timer.Data()).(remainingTime := RoundToStep(old(timer.remainingTime))) &&
                !isDialMoving && dialAngle == 0.0 && !mouseDown &&
                mouseSpeed == Finite(0.0) && previous == None
      ensures old(mouseDown) && 0.0 <= old(timer.remainingTime) <= MAX_TIME ==>
                0.0 <= timer.remainingTime <= MAX_TIME && IsStepMultiple(timer.remainingTime)
      ensures totalTime == old(totalTime) && timerDone == old(timerDone)
      ensures hoveringOverTitle == old(hoveringOverTitle) && hoveringOverDial == old(hoveringOverDial)
    {
      if !mouseDown {
        return;
      }
      isDialMoving := false;
      timer.remainingTime := RoundToStep(timer.remainingTime);
      dialAngle := 0.0;
      mouseDown := false;
      mouseSpeed := Finite(0.0);
      previous := None;
    }

    /** The Start button: starts the timer with the time set on the dial and records it as the total. */
    method StartTimer(now: real)
      modifies this, timer
      ensures timer.Data() == Started(old(timer.Data()), old(timer.remainingTime) / 1000.0, Some(old(timer.name)), now)
      ensures timer.duration == timer.remainingTime == old(timer.remainingTime) && timer.name == old(timer.name)
      ensures totalTime == Some(old(timer.remainingTime))
      ensures timerDone == old(timerDone) && mouseDown == old(mouseDown) && previous == old(previous)
      ensures dialAngle == old(dialAngle) && mouseSpeed == old(mouseSpeed) && isDialMoving == old(isDialMoving)
      ensures hoveringOverTitle == old(hoveringOverTitle) && hoveringOverDial == old(hoveringOverDial)
    {
      timer.StartTimer(timer.remainingTime / 1000.0, Some(timer.name), now);
      totalTime := Some(timer.remainingTime);
    }

    /** The Pause button. */
    method PauseTimer()
      modifies timer
      ensures timer.Data() == Paused(old(timer.Data()))
    {
      timer.PauseTimer();
    }

    /** The Resume button. */
    method ResumeTimer(now: real)
      modifies timer
      ensures timer.Data() == Resumed(old(timer.Data()), now)
    {
      timer.ResumeTimer(now);
    }

    /** The Reset button: resets the timer and clears the total time and the done flag. */
    method ResetTimer()
      modifies this, timer
      ensures timer.Data() == Reset(old(timer.Data()))
      ensures totalTime == Some(0.0) && !timerDone
      ensures mouseDown == old(mouseDown) && previous == old(previous) && dialAngle == old(dialAngle)
      ensures mouseSpeed == old(mouseSpeed) && isDialMoving == old(isDialMoving)
      ensures hoveringOverTitle == old(hoveringOverTitle) && hoveringOverDial == old(hoveringOverDial)
    {
      timer.ResetTimer();
      totalTime := Some(0.0);
      timerDone := false;
    }

    /** `window.onfocus` and `window.onblur` alike: abandon any drag and clear both highlights. */
    method FocusChanged()
      requires Valid()
      modifies this
      ensures Valid()
      ensures !mouseDown && !hoveringOverDial && !hoveringOverTitle
      ensures totalTime == old(totalTime) && timerDone == old(timerDone) && previous == old(previous)
      ensures dialAngle == old(dialAngle) && mouseSpeed == old(mouseSpeed) && isDialMoving == old(isDialMoving)
    {
      mouseDown := false;
      hoveringOverDial := false;
      hoveringOverTitle := false;
    }
  }
}
