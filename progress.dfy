/** The progress projector of the recording button: the segment times of a
    session, their running total, and the two values the ring is drawn from --
    the stroke fraction of the newest segment's arc and the angle that arc
    starts at. */
module SegmentProgress {

  /** `M_PI`, written as the shortest decimal that rounds to that Double. */
  const Pi: real := 3.141592653589793

  /** Every arc of the ring starts no earlier than the top of the circle ... */
  const BaseAngle: real := 1.5 * Pi

  /** ... and runs clockwise to the same end point, one full turn later. */
  const EndAngle: real := 3.5 * Pi

  /** Sum of the segment times, accumulated from the first segment to the last. */
  function Sum(times: seq<real>): (total: real)
  {
    if times == [] then 0.0 else Sum(times[..|times| - 1]) + times[|times| - 1]
  }

  /** The time recorded before the newest segment began. */
  function ElapsedBefore(times: seq<real>): (elapsed: real)
    requires |times| > 0
  {
    Sum(times[..|times| - 1])
  }

  /** The fraction of its path that the newest segment's arc covers after
      `recordingTime` seconds: relative to the budget left when the segment
      began, not to the whole timeout. With a single segment the code divides
      by the timeout itself, which is the same thing because nothing came
      before. The code has no guard against a zero denominator. */
  function StrokeEnd(times: seq<real>, timeout: real, recordingTime: real): (f: real)
    requires |times| > 0
    requires timeout != ElapsedBefore(times)
    ensures (timeout - ElapsedBefore(times)) * f == recordingTime
  {
    if |times| > 1 then
      var elapsedTime := Sum(times[..|times| - 1]);
      recordingTime / (timeout - elapsedTime)
    else
      recordingTime / timeout
  }

  /** The angle at which the newest segment's arc starts: the base angle,
      advanced by the share of the timeout that the earlier segments used. */
  function CalculateStartAngle(times: seq<real>, timeout: real): (a: real)
    requires |times| > 1 ==> timeout != 0.0
    ensures |times| <= 1 ==> a == BaseAngle
    ensures |times| > 0 && timeout != 0.0 ==>
              a == BaseAngle + 2.0 * Pi * (ElapsedBefore(times) / timeout)
  {
    if |times| > 1 then
      var elapsedTime := Sum(times[..|times| - 1]);
      var temp := elapsedTime / timeout;
      BaseAngle + 2.0 * Pi * temp
    else
      BaseAngle
  }

  /** Segment times that are never negative add up to a non-negative total. */
  lemma {:induction false} SumNonNegative(times: seq<real>)
    requires forall i :: 0 <= i < |times| ==> times[i] >= 0.0
    ensures Sum(times) >= 0.0
  {
    if times != [] {
      SumNonNegative(times[..|times| - 1]);
    }
  }

  /** Appending a segment adds its time to the total. */
  lemma SumAppend(times: seq<real>, x: real)
    ensures Sum(times + [x]) == Sum(times) + x
    ensures ElapsedBefore(times + [x]) == Sum(times)
  {
    assert (times + [x])[..|times|] == times;
  }

  /** Overwriting the newest segment's time leaves the earlier segments and
      their total alone. */
  lemma SumUpdateLast(times: seq<real>, x: real)
    requires |times| > 0
    ensures Sum(times[|times| - 1 := x]) == ElapsedBefore(times) + x
    ensures ElapsedBefore(times[|times| - 1 := x]) == ElapsedBefore(times)
  {
    assert times[|times| - 1 := x][..|times| - 1] == times[..|times| - 1];
  }

  /** Removing the newest segment takes exactly its time off the total. */
  lemma SumRemoveLast(times: seq<real>)
    requires |times| > 0
    ensures Sum(times[..|times| - 1]) == Sum(times) - times[|times| - 1]
  {
  }

  /** While the newest segment stays within the budget left for it, its arc
      covers between none and all of its path, and all of it exactly when the
      budget is used up. */
  lemma StrokeEndBounds(times: seq<real>, timeout: real, recordingTime: real)
    requires |times| > 0
    requires ElapsedBefore(times) < timeout
    requires 0.0 <= recordingTime <= timeout - ElapsedBefore(times)
    ensures 0.0 <= StrokeEnd(times, timeout, recordingTime) <= 1.0
    ensures (StrokeEnd(times, timeout, recordingTime) == 1.0)
              <==> (recordingTime == timeout - ElapsedBefore(times))
  {
    UnitRatio(timeout - ElapsedBefore(times), StrokeEnd(times, timeout, recordingTime), recordingTime);
  }

  /** A ratio `f` with `d * f == x` for `0 <= x <= d` lies in `[0, 1]`, and
      is 1 exactly when `x == d`. */
  lemma UnitRatio(d: real, f: real, x: real)
    requires d > 0.0 && d * f == x && 0.0 <= x <= d
    ensures 0.0 <= f <= 1.0
    ensures (f == 1.0) <==> (x == d)
  {
    assert f < 0.0 ==> d * (-f) > 0.0;
    assert f > 1.0 ==> d * (f - 1.0) > 0.0;
    assert f != 1.0 ==> d * (f - 1.0) != 0.0;
  }

  /** While the earlier segments stay within the timeout, the newest arc
      starts on the drawn circle, between the base angle and the end angle. */
  lemma StartAngleInRing(times: seq<real>, timeout: real)
    requires |times| > 0
    requires timeout > 0.0
    requires 0.0 <= ElapsedBefore(times) <= timeout
    ensures BaseAngle <= CalculateStartAngle(times, timeout) <= EndAngle
  {
    var share := ElapsedBefore(times) / timeout;
    assert 0.0 <= share <= 1.0;
    assert 0.0 <= 2.0 * Pi * share <= 2.0 * Pi;
  }

  /** The angle the newest arc actually sweeps -- its stroke fraction of the
      path from its start angle to the end angle -- is its share of the whole
      timeout: normalising by the remaining budget undoes the shortened path. */
  lemma ArcSweep(times: seq<real>, timeout: real, recordingTime: real)
    requires |times| > 0
    requires timeout != 0.0 && timeout != ElapsedBefore(times)
    ensures StrokeEnd(times, timeout, recordingTime) * (EndAngle - CalculateStartAngle(times, timeout))
              == 2.0 * Pi * (recordingTime / timeout)
  {
    var b := ElapsedBefore(times);
    var f := StrokeEnd(times, timeout, recordingTime);
    var a := CalculateStartAngle(times, timeout);
    assert (timeout - b) * f == recordingTime;
    assert a == BaseAngle + 2.0 * Pi * (b / timeout);
    var q := b / timeout;
    var r := recordingTime / timeout;
    assert q * timeout == b;
    assert r * timeout == recordingTime;
    assert (f * (1.0 - q)) * timeout == f * (timeout - b);
    assert (f * (1.0 - q) - r) * timeout == 0.0;
    assert f * (1.0 - q) == r;
    calc {
      f * (EndAngle - a);
      f * (2.0 * Pi - 2.0 * Pi * q);
      2.0 * Pi * (f * (1.0 - q));
      2.0 * Pi * r;
    }
  }

  /** Consecutive arcs join: once a segment is closed at its recorded time,
      the next segment's arc starts exactly where the closed segment's arc
      ended. */
  lemma ArcsJoin(times: seq<real>, timeout: real, x: real)
    requires |times| > 0
    requires timeout != 0.0 && timeout != ElapsedBefore(times)
    ensures CalculateStartAngle(times + [x], timeout)
              == CalculateStartAngle(times, timeout)
                 + StrokeEnd(times, timeout, times[|times| - 1])
                   * (EndAngle - CalculateStartAngle(times, timeout))
  {
    var last := times[|times| - 1];
    SumAppend(times, x);
    ArcSweep(times, timeout, last);
    assert Sum(times) == ElapsedBefore(times) + last;
    assert (ElapsedBefore(times) + last) / timeout
           == ElapsedBefore(times) / timeout + last / timeout;
  }

  /** The timeout timer is set for the budget left when a segment starts; if
      the newest segment has run for exactly that interval, the total equals
      the timeout and its arc is full. */
  lemma BudgetUsedAtTimeout(times: seq<real>, timeout: real, startTime: real)
    requires |times| > 0
    requires ElapsedBefore(times) < timeout
    ensures var interval := timeout - ElapsedBefore(times);
            var updated := times[|times| - 1 := (startTime + interval) - startTime];
            Sum(updated) == timeout
            && StrokeEnd(updated, timeout, updated[|updated| - 1]) == 1.0
  {
    var interval := timeout - ElapsedBefore(times);
    SumUpdateLast(times, (startTime + interval) - startTime);
    var updated := times[|times| - 1 := (startTime + interval) - startTime];
    StrokeEndBounds(updated, timeout, updated[|updated| - 1]);
  }
}
