/**
 * The countdown timer: five fields changed by start, pause, resume, reset and an update
 * that recomputes the remaining time from the wall-clock stamp of the last start or
 * resume (no caller of the update appears in the sketch). The clock reading `now`
 * (JavaScript's `Date.now()`) is a parameter.
 *
 * The pure functions on `TimerData` describe each transition; the `Timer` class performs
 * them in place and its methods are proved to agree with them.
 */
module Timers {
  import opened Wrappers
  import opened JsNumbers

  /** The name `startTimer` uses when it is called without one. */
  const DEFAULT_NAME: string := "untitled timer"

  /** The state of a timer, as its fields hold it (and as it is saved and loaded). */
  datatype TimerData = TimerData(
    name: string,
    startTime: real,
    duration: real,
    isRunning: bool,
    remainingTime: real)

  /**
   * There is no separate expired state: a timer that ran out is one that has stopped with
   * nothing remaining of a non-zero duration.
   */
  predicate Expired(t: TimerData) {
    !t.isRunning && t.remainingTime == 0.0 && t.duration != 0.0
  }

  /** A timer as the constructor leaves it. */
  function Fresh(): TimerData {
    TimerData("", 0.0, 0.0, false, 0.0)
  }

  /** `startTimer(seconds, timerName)` at `now`; `None` stands for an omitted name. */
  function Started(t: TimerData, seconds: real, timerName: Option<string>, now: real): TimerData {
    var duration := seconds * 1000.0;
    TimerData(timerName.GetOr(DEFAULT_NAME), now, duration, true, duration)
  }

  /** `pauseTimer`: only the running flag changes. */
  function Paused(t: TimerData): (u: TimerData)
    ensures !u.isRunning
    ensures u.(isRunning := t.isRunning) == t
  {
    t.(isRunning := false)
  }

  /** `resumeTimer` at `now`: the time left becomes the duration counted from `now`. */
  function Resumed(t: TimerData, now: real): TimerData {
    t.(startTime := now, duration := t.remainingTime, isRunning := true)
  }

  /** `resetTimer`: back to a fresh timer, keeping only the name. */
  function Reset(t: TimerData): (u: TimerData)
    ensures u == Fresh().(name := t.name)
    ensures !Expired(u)
    ensures forall now :: Updated(u, now) == u
  {
    t.(isRunning := false, startTime := 0.0, duration := 0.0, remainingTime := 0.0)
  }

  /**
   * `update` at `now`: a stopped timer is left alone; a running one gets the duration less
   * the time elapsed since its start stamp, and when that is not positive the remaining
   * time is set to 0 and the timer pauses itself.
   */
  function Updated(t: TimerData, now: real): (u: TimerData)
    ensures !t.isRunning ==> u == t
    ensures u.name == t.name && u.startTime == t.startTime && u.duration == t.duration
    ensures t.isRunning ==> u.remainingTime == Max(t.duration - (now - t.startTime), 0.0)
    ensures t.isRunning ==> (u.isRunning <==> t.duration - (now - t.startTime) > 0.0)
    ensures t.isRunning ==> 0.0 <= u.remainingTime
    ensures t.isRunning && t.startTime <= now && 0.0 <= t.duration ==> u.remainingTime <= t.duration
    ensures t.isRunning && t.duration != 0.0 && !u.isRunning ==> Expired(u)
  {
    if t.isRunning then
      var remaining := t.duration - (now - t.startTime);
      if remaining <= 0.0 then Paused(t.(remainingTime := 0.0)) else t.(remainingTime := remaining)
    else
      t
  }

  /** Updating twice at the same instant is updating once. */
  lemma UpdateIdempotent(t: TimerData, now: real)
    ensures Updated(Updated(t, now), now) == Updated(t, now)
  {
  }

  /** The update of a run of frames, in order. */
  function UpdatedFrames(t: TimerData, frames: seq<real>): TimerData
    decreases |frames|
  {
    if frames == [] then t else UpdatedFrames(Updated(t, frames[0]), frames[1..])
  }

  /**
   * Because the remaining time is recomputed from the start stamp, how many frames ran
   * does not matter: updating at every frame of a run that goes forward in time gives the
   * state of a single update at the last frame.
   */
  lemma {:induction false} FramesDoNotDrift(t: TimerData, frames: seq<real>)
    requires frames != []
    requires forall i, j :: 0 <= i < j < |frames| ==> frames[i] <= frames[j]
    ensures UpdatedFrames(t, frames) == Updated(t, frames[|frames| - 1])
    decreases |frames|
  {
    if |frames| > 1 {
      var rest := frames[1..];
      FramesDoNotDrift(Updated(t, frames[0]), rest);
      assert frames[0] <= rest[|rest| - 1];
      assert Updated(Updated(t, frames[0]), rest[|rest| - 1]) == Updated(t, rest[|rest| - 1]);
    }
  }

  /** Starting with a positive number of seconds and updating at once shows the whole duration. */
  lemma StartThenUpdate(t: TimerData, seconds: real, timerName: Option<string>, now: real)
    requires seconds > 0.0
    ensures var u := Updated(Started(t, seconds, timerName, now), now);
            u.isRunning && u.remainingTime == seconds * 1000.0 == u.duration && u.startTime == now
  {
  }

  /** Once the whole duration has passed on the clock, the next update finds the timer expired. */
  lemma StartRunsOut(t: TimerData, seconds: real, timerName: Option<string>, now: real, later: real)
    requires seconds > 0.0 && later >= now + seconds * 1000.0
    ensures var u := Updated(Started(t, seconds, timerName, now), later);
            Expired(u) && u.remainingTime == 0.0
  {
  }

  /** Pausing, then resuming and updating at one instant, leaves the remaining time as it was. */
  lemma PauseResumeKeepsRemaining(t: TimerData, now: real)
    requires t.remainingTime >= 0.0
    ensures var u := Updated(Resumed(Paused(t), now), now);
            u.remainingTime == t.remainingTime && (u.isRunning <==> t.remainingTime > 0.0)
  {
  }

  /**
   * The time a timer spends paused is not counted: after a resume at `resumedAt`, an update
   * at `later` takes off only the time since the resume.
   */
  lemma PausedTimeNotCounted(t: TimerData, pausedAt: real, resumedAt: real, later: real)
    requires t.isRunning
    ensures var p := Paused(Updated(t, pausedAt));
            Updated(Resumed(p, resumedAt), later).remainingTime
              == Max(p.remainingTime - (later - resumedAt), 0.0)
  {
  }

  /** The live timer: its fields are updated in place by the methods below. */
  class Timer {
    var name: string
    var startTime: real
    var duration: real
    var isRunning: bool
    var remainingTime: real

    /** The fields as one value. */
    function Data(): TimerData
      reads this
    {
      TimerData(name, startTime, duration, isRunning, remainingTime)
    }

    constructor ()
      ensures Data() == Fresh()
    {
      name := "";
      startTime := 0.0;
      duration := 0.0;
      isRunning := false;
      remainingTime := 0.0;
    }

    /** `loadTimer`: copies a saved state field by field. */
    method LoadTimer(timerData: TimerData)
      modifies this
      ensures Data() == timerData
    {
      name := timerData.name;
      startTime := timerData.startTime;
      duration := timerData.duration;
      isRunning := timerData.isRunning;
      remainingTime := timerData.remainingTime;
    }

    method StartTimer(seconds: real, timerName: Option<string>, now: real)
      modifies this
      ensures Data() == Started(old(Data()), seconds, timerName, now)
    {
      name := timerName.GetOr(DEFAULT_NAME);
      startTime := now;
      duration := seconds * 1000.0;
      isRunning := true;
      remainingTime := duration;
    }

    method PauseTimer()
      modifies this
      ensures Data() == Paused(old(Data()))
    {
      isRunning := false;
    }

    method ResumeTimer(now: real)
      modifies this
      ensures Data() == Resumed(old(Data()), now)
    {
      startTime := now;
      duration := remainingTime;
      isRunning := true;
    }

    method ResetTimer()
      modifies this
      ensures Data() == Reset(old(Data()))
    {
      isRunning := false;
      startTime := 0.0;
      duration := 0.0;
      remainingTime := duration;
    }

    method Update(now: real)
      modifies this
      ensures Data() == Updated(old(Data()), now)
    {
      if isRunning {
        var elapsed := now - startTime;
        remainingTime := duration - elapsed;
        if remainingTime <= 0.0 {
          remainingTime := 0.0;
          PauseTimer();
        }
      }
    }
  }
}
