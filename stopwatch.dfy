/**
 * The stopwatch service: idle, or running since a recorded start time. `Start`
 * and `Stop` are guarded by that state and report a refused call in the
 * response instead of raising. The monotonic clock is the `now` parameter.
 */
module Stopwatch {
  import opened Outcomes

  const AlreadyStarted: string := "Cannot start stopwatch because it is already started"
  const NotStarted: string := "Cannot stop stopwatch because it is not started"

  /** `StartResponse`; unset proto fields read as `false` and the empty string. */
  datatype StartResponse = StartResponse(success: bool, error: string)

  /** `StopResponse`; an unset `time_elapsed` reads as 0. */
  datatype StopResponse = StopResponse(success: bool, error: string, timeElapsed: real)

  /** The new `_start_time` and the response of `Start` called at `now`. */
  function StartStep(startTime: Option<real>, now: real): (Option<real>, StartResponse)
  {
    if startTime.None? then (Some(now), StartResponse(true, ""))
    else (startTime, StartResponse(false, AlreadyStarted))
  }

  /** The new `_start_time` and the response of `Stop` called at `now`. */
  function StopStep(startTime: Option<real>, now: real): (Option<real>, StopResponse)
  {
    if startTime.Some? then (None, StopResponse(true, "", now - startTime.value))
    else (startTime, StopResponse(false, NotStarted, 0.0))
  }

  class StopwatchServicer {
    /** `_start_time`: `None` while idle, the clock reading of the accepted `Start` while running. */
    var startTime: Option<real>

    constructor ()
      ensures startTime == None
    {
      startTime := None;
    }

    method Start(now: real) returns (response: StartResponse)
      modifies this
      ensures (startTime, response) == StartStep(old(startTime), now)
      ensures response.success <==> old(startTime) == None
      ensures response.success ==> startTime == Some(now) && response.error == ""
      ensures !response.success ==> startTime == old(startTime) && response.error == AlreadyStarted
    {
      response := StartResponse(false, "");
      if startTime == None {
        startTime := Some(now);
        response := response.(success := true);
      } else {
        response := response.(success := false, error := AlreadyStarted);
      }
    }

    method Stop(now: real) returns (response: StopResponse)
      modifies this
      ensures (startTime, response) == StopStep(old(startTime), now)
      ensures response.success <==> old(startTime) != None
      ensures response.success ==> startTime == None && response.timeElapsed == now - old(startTime).value
      ensures !response.success ==> startTime == old(startTime) && response.error == NotStarted
    {
      response := StopResponse(false, "", 0.0);
      if startTime != None {
        response := response.(timeElapsed := now - startTime.value);
        startTime := None;
        response := response.(success := true);
      } else {
        response := response.(success := false, error := NotStarted);
      }
    }
  }

  /**
   * Start at `t0` followed by Stop at `t1` on a fresh service reports
   * `t1 - t0`, which is not negative when the clock does not run backwards,
   * and leaves the service idle again.
   */
  lemma StartThenStopElapsed(t0: real, t1: real)
    ensures var (running, started) := StartStep(None, t0);
      var (idle, stopped) := StopStep(running, t1);
      && started.success && stopped.success && idle == None
      && stopped.timeElapsed == t1 - t0
      && (t0 <= t1 ==> stopped.timeElapsed >= 0.0)
  {
  }

  /** A second `Start` while running is refused and keeps the first start time. */
  lemma StartTwiceKeepsFirst(startTime: Option<real>, t0: real, t1: real)
    ensures var (s1, _) := StartStep(startTime, t0);
      var (s2, second) := StartStep(s1, t1);
      !second.success && second.error == AlreadyStarted && s2 == s1 && s1.Some?
  {
  }

  /** Whatever the state, two `Stop`s in a row make the second fail and leave the service idle. */
  lemma StopTwiceFails(startTime: Option<real>, t0: real, t1: real)
    ensures var (s1, _) := StopStep(startTime, t0);
      var (s2, second) := StopStep(s1, t1);
      !second.success && second.error == NotStarted && s1 == None && s2 == None
  {
  }

  /**
   * The service as its clients see it: a fresh servicer, a `Start` at `t0` and
   * a `Stop` at `t1`. With a non-decreasing clock the elapsed time is never
   * negative.
   */
  method StartThenStop(t0: real, t1: real) returns (started: StartResponse, stopped: StopResponse)
    requires t0 <= t1
    ensures started.success && stopped.success
    ensures stopped.timeElapsed == t1 - t0 && stopped.timeElapsed >= 0.0
  {
    var servicer := new StopwatchServicer();
    started := servicer.Start(t0);
    stopped := servicer.Stop(t1);
  }

  /** A `Stop` on a fresh servicer fails, and so does a second `Stop` after a successful one. */
  method StopWithoutStart(t0: real, t1: real, t2: real) returns (first: StopResponse, afterStop: StopResponse)
    ensures !first.success && first.error == NotStarted
    ensures !afterStop.success && afterStop.error == NotStarted
  {
    var servicer := new StopwatchServicer();
    first := servicer.Stop(t0);
    var started := servicer.Start(t1);
    var stopped := servicer.Stop(t2);
    afterStop := servicer.Stop(t2);
  }
}
