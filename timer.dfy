/**
 * The workout clock: the `startTime` / `elapsedSeconds` / `isPaused` triple
 * that `startTimer`, `pauseTimer` and `resumeTimer` update, and the total the
 * user interface derives from it. Times are milliseconds (`Date.now()`),
 * passed in as `now`.
 */
module Timer {
  import opened Wrappers

  datatype Clock = Clock(startTime: Option<int>, elapsedSeconds: int, isPaused: bool)

  /** The source tests `workout.startTime` for truthiness, so a start time of 0 reads as stopped. */
  predicate Running(c: Clock) {
    c.startTime.Some? && c.startTime.value != 0
  }

  /** `startTimer` and `resumeTimer`: both restart the running baseline at `now`. */
  function Start(c: Clock, now: int): Clock {
    c.(startTime := Some(now), isPaused := false)
  }

  /** `pauseTimer`: fold the whole seconds since the baseline into `elapsedSeconds`. */
  function Pause(c: Clock, now: int): Clock {
    if !Running(c) then c
    else Clock(None, c.elapsedSeconds + (now - c.startTime.value) / 1000, true)
  }

  /** The total number of seconds the timer displays at instant `now`. */
  function Total(c: Clock, now: int): int {
    c.elapsedSeconds + if Running(c) then (now - c.startTime.value) / 1000 else 0
  }

  /** Starting or resuming never touches the accumulated seconds, and leaves the clock running. */
  lemma StartKeepsElapsed(c: Clock, now: int)
    ensures Start(c, now).elapsedSeconds == c.elapsedSeconds
    ensures now != 0 ==> Running(Start(c, now)) && Total(Start(c, now), now) == c.elapsedSeconds
  {
  }

  /**
   * Pausing a running clock adds the whole seconds since the baseline, clears
   * the start time and marks it paused; pausing a paused clock changes nothing,
   * so pausing twice is pausing once.
   */
  lemma PauseSpec(c: Clock, now: int, later: int)
    ensures Running(c) ==> Pause(c, now) == Clock(None, c.elapsedSeconds + (now - c.startTime.value) / 1000, true)
    ensures !Running(c) ==> Pause(c, now) == c
    ensures Pause(Pause(c, now), later) == Pause(c, now)
  {
  }

  /** Pausing does not change the displayed total at the instant of the pause. */
  lemma PauseKeepsTotal(c: Clock, now: int)
    ensures Total(Pause(c, now), now) == Total(c, now)
  {
  }

  /**
   * Resuming a paused clock does not change the displayed total at that
   * instant; resuming a running one drops the seconds since its baseline.
   */
  lemma ResumeTotal(c: Clock, now: int)
    ensures Total(Start(c, now), now) == c.elapsedSeconds
    ensures !Running(c) ==> Total(Start(c, now), now) == Total(c, now)
  {
  }

  lemma FloorBounds(a: int)
    ensures 1000 * (a / 1000) <= a < 1000 * (a / 1000) + 1000
  {
  }

  /** The displayed total never goes backwards as time advances. */
  lemma TotalMonotone(c: Clock, now: int, later: int)
    requires now <= later
    ensures Total(c, now) <= Total(c, later)
  {
    if Running(c) {
      FloorBounds(now - c.startTime.value);
      FloorBounds(later - c.startTime.value);
    }
  }

  datatype TimerEvent = PauseAt(time: int) | ResumeAt(time: int)

  function Apply(c: Clock, e: TimerEvent): Clock {
    match e
    case PauseAt(t) => Pause(c, t)
    case ResumeAt(t) => Start(c, t)
  }

  /** The clock after pressing pause and resume at the given instants, in order. */
  function Replay(c: Clock, evs: seq<TimerEvent>): Clock
    decreases |evs|
  {
    if evs == [] then c else Replay(Apply(c, evs[0]), evs[1..])
  }

  /**
   * Reference definition, independent of the clock's arithmetic: the wall-clock
   * milliseconds up to `now` during which the workout was running, given the
   * instant `since` it last started (None while paused). Pressing resume while
   * running does not stop real time.
   */
  ghost function RunningMs(since: Option<int>, evs: seq<TimerEvent>, now: int): int
    decreases |evs|
  {
    var upTo := (t: int) => if since.Some? then t - since.value else 0;
    if evs == [] then upTo(now)
    else match evs[0]
      case PauseAt(t) => upTo(t) + RunningMs(None, evs[1..], now)
      case ResumeAt(t) => upTo(t) + RunningMs(Some(t), evs[1..], now)
  }

  /** The events happen at positive, non-decreasing instants from `lo` on, all no later than `now`. */
  ghost predicate Chronological(lo: int, evs: seq<TimerEvent>, now: int)
    decreases |evs|
  {
    if evs == [] then lo <= now
    else 0 < lo <= evs[0].time && Chronological(evs[0].time, evs[1..], now)
  }

  /** Resume is only pressed while the clock is paused (as the user interface offers it). */
  ghost predicate ResumesOnlyWhenPaused(since: Option<int>, evs: seq<TimerEvent>)
    decreases |evs|
  {
    evs == [] ||
    match evs[0]
    case PauseAt(_) => ResumesOnlyWhenPaused(None, evs[1..])
    case ResumeAt(t) => since.None? && ResumesOnlyWhenPaused(Some(t), evs[1..])
  }

  function PauseCount(evs: seq<TimerEvent>): nat {
    if evs == [] then 0 else (if evs[0].PauseAt? then 1 else 0) + PauseCount(evs[1..])
  }

  /**
   * Over any history of pause and resume presses, the displayed total never
   * counts more than the wall-clock running time; when resume is pressed only
   * while paused it counts less by under one second per pause (each pause
   * drops the fraction of a second since its baseline), plus the one second
   * the display itself truncates.
   */
  lemma {:induction false} ReplayTotalBounds(c: Clock, evs: seq<TimerEvent>, now: int, lo: int)
    requires c.startTime.Some? ==> c.startTime.value == lo
    requires Chronological(lo, evs, now)
    requires 0 < lo
    ensures 1000 * Total(Replay(c, evs), now) <= 1000 * c.elapsedSeconds + RunningMs(c.startTime, evs, now)
    ensures ResumesOnlyWhenPaused(c.startTime, evs) ==>
      1000 * Total(Replay(c, evs), now) > 1000 * c.elapsedSeconds + RunningMs(c.startTime, evs, now) - 1000 * (PauseCount(evs) + 1)
    decreases |evs|
  {
    if evs == [] {
      if c.startTime.Some? {
        FloorBounds(now - lo);
      }
    } else {
      var e, rest := evs[0], evs[1..];
      var t := e.time;
      match e
      case PauseAt(_) =>
        var p := Pause(c, t);
        if c.startTime.Some? {
          FloorBounds(t - lo);
        }
        ReplayTotalBounds(p, rest, now, t);
      case ResumeAt(_) =>
        var p := Start(c, t);
        ReplayTotalBounds(p, rest, now, t);
    }
  }
}
