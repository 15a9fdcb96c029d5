/** The recording button's session state machine: the interaction mode, the
    status, the recorded segment times, the time the current segment began,
    the timeout configuration and the timers.

    The wall clock is the `now` parameter of the methods that read it. The
    timers are flags: the tick timer (repeating, 0.1 s), the timeout timer
    (one-shot, with the interval it was scheduled for) and the deferred settle
    callback of `endRecording`, of which several may be queued. The run loop
    fires them by calling `Tick`, `TimeoutRecording` and `SettleAfterEnd`,
    each only while its timer is set or its callback queued. The delegate's calls are recorded in a ghost event log. */
module RecordingButtonControl {
  import opened SegmentProgress

  datatype Mode = Pressing | Pressed

  datatype Status = Idle | Paused | Recording

  /** The calls the button makes on its delegate. */
  datatype Event = Started | Progress(recordingTimeInSec: real) | Ended | BecameIdle

  class RecordingButton {
    var mode: Mode
    var status: Status
    var timeout: real
    var startRecordingTime: real
    /** The time of each recorded segment, oldest first; the newest is the
        one a tick updates. */
    var progressPaths: seq<real>
    /** Whether the tick timer handle is set. */
    var tickTimer: bool
    /** Whether the timeout timer handle is set, and the interval it was
        last scheduled with. */
    var timeoutTimer: bool
    var timeoutInterval: real
    /** Whether the button takes touches. */
    var enabled: bool
    /** Settle callbacks of `endRecording` queued and not yet run. */
    var pendingSettles: nat
    ghost var events: seq<Event>

    /** Both timers are set exactly while recording, and the button is only
        ever disabled while a settle callback is still to come. */
    ghost predicate Valid()
      reads this
    {
      (tickTimer <==> status == Recording)
      && (timeoutTimer <==> status == Recording)
      && (!enabled ==> pendingSettles > 0)
    }

    constructor ()
      ensures Valid()
      ensures mode == Pressing && status == Idle && timeout == 0.0
      ensures startRecordingTime == 0.0 && progressPaths == []
      ensures !tickTimer && !timeoutTimer && enabled && pendingSettles == 0
      ensures events == []
    {
      mode := Pressing;
      status := Idle;
      timeout := 0.0;
      startRecordingTime := 0.0;
      progressPaths := [];
      tickTimer := false;
      timeoutTimer := false;
      timeoutInterval := 0.0;
      enabled := true;
      pendingSettles := 0;
      events := [];
    }

    /** `totalRecordingSec`: the segment times added up in order. */
    method TotalRecordingSec() returns (total: real)
      ensures total == Sum(progressPaths)
    {
      total := 0.0;
      for i := 0 to |progressPaths|
        invariant total == Sum(progressPaths[..i])
      {
        assert progressPaths[..i + 1][..i] == progressPaths[..i];
        total := total + progressPaths[i];
      }
      assert progressPaths[..|progressPaths|] == progressPaths;
    }

    /** The touch-down handler. Holding the button records in `Pressing`
        mode; in `Pressed` mode a tap starts or resumes, and a tap while
        recording pauses. */
    method DidTouchDown(now: real)
      modifies this
      ensures old(Valid()) ==> Valid()
      ensures mode == old(mode) && timeout == old(timeout)
      ensures pendingSettles == old(pendingSettles)
      ensures old(mode) == Pressing || old(status) != Recording ==>
                && progressPaths == old(progressPaths) + [0.0]
                && status == Recording && startRecordingTime == now
                && tickTimer && timeoutTimer
                && timeoutInterval == timeout - Sum(old(progressPaths))
                && enabled == old(enabled)
                && events == old(events) + [Started, Progress(Sum(old(progressPaths)))]
      ensures old(mode) == Pressed && old(status) == Recording ==>
                && progressPaths == old(progressPaths)
                && status == Paused && startRecordingTime == old(startRecordingTime)
                && !tickTimer && !timeoutTimer
                && timeoutInterval == old(timeoutInterval)
                && enabled
                && events == old(events) + [Ended]
    {
      if mode == Pressing {
        AddNewProgressPath();
        StartRecording(now);
      } else {
        if status == Idle {
          AddNewProgressPath();
          StartRecording(now);
        } else if status == Paused {
          AddNewProgressPath();
          StartRecording(now);
        } else if status == Recording {
          events := events + [Ended];
          PauseRecording();
        }
      }
      SumAppend(old(progressPaths), 0.0);
    }

    /** The touch-up handler: releasing the button pauses in `Pressing` mode
        and does nothing in `Pressed` mode. */
    method DidTouchUp()
      modifies this
      ensures old(Valid()) ==> Valid()
      ensures mode == old(mode) && timeout == old(timeout)
      ensures progressPaths == old(progressPaths)
      ensures startRecordingTime == old(startRecordingTime)
      ensures timeoutInterval == old(timeoutInterval)
      ensures pendingSettles == old(pendingSettles)
      ensures old(mode) == Pressing ==>
                status == Paused && !tickTimer && !timeoutTimer && enabled
                && events == old(events) + [Ended]
      ensures old(mode) == Pressed ==>
                status == old(status) && tickTimer == old(tickTimer)
                && timeoutTimer == old(timeoutTimer) && enabled == old(enabled)
                && events == old(events)
    {
      if mode == Pressing {
        events := events + [Ended];
        PauseRecording();
      }
    }

    /** A tick: the newest segment's time becomes the time since recording
        (re)started, the earlier segments stay as they are, and the delegate
        hears the new total. Without a segment nothing happens. Redrawing that
        segment's arc, from `StrokeEnd` and `CalculateStartAngle`, is left to
        the layers. */
    method UpdateProgress(now: real)
      modifies this`progressPaths, this`events
      ensures old(progressPaths) == [] ==>
                progressPaths == [] && events == old(events)
      ensures old(progressPaths) != [] ==>
                && progressPaths == old(progressPaths)[|old(progressPaths)| - 1 := now - startRecordingTime]
                && Sum(progressPaths) == ElapsedBefore(old(progressPaths)) + (now - startRecordingTime)
                && events == old(events) + [Progress(Sum(progressPaths))]
    {
      if |progressPaths| > 0 {
        ghost var before := progressPaths;
        var recordingTime := now - startRecordingTime;
        progressPaths := progressPaths[|progressPaths| - 1 := recordingTime];
        SumUpdateLast(before, recordingTime);
        var total := TotalRecordingSec();
        events := events + [Progress(total)];
      }
    }

    /** The tick timer firing: it runs `updateProgress`, and only while its
        handle is set, since every place that drops the handle invalidates
        the timer first. */
    method Tick(now: real)
      requires tickTimer
      modifies this`progressPaths, this`events
      ensures old(progressPaths) == [] ==>
                progressPaths == [] && events == old(events)
      ensures old(progressPaths) != [] ==>
                && progressPaths == old(progressPaths)[|old(progressPaths)| - 1 := now - startRecordingTime]
                && Sum(progressPaths) == ElapsedBefore(old(progressPaths)) + (now - startRecordingTime)
                && events == old(events) + [Progress(Sum(progressPaths))]
    {
      UpdateProgress(now);
    }

    /** The timeout timer firing, which it only does while its handle is set:
        the delegate hears that recording ended and the settle callback is
        queued. Status and timers are left to that callback. */
    method TimeoutRecording()
      requires timeoutTimer
      modifies this`enabled, this`pendingSettles, this`events
      ensures old(Valid()) ==> Valid()
      ensures !enabled && pendingSettles == old(pendingSettles) + 1
      ensures events == old(events) + [Ended]
    {
      events := events + [Ended];
      EndRecording();
    }

    /** `addNewProgressPath`: a new segment of time zero at the end. */
    method AddNewProgressPath()
      modifies this`progressPaths
      ensures progressPaths == old(progressPaths) + [0.0]
    {
      progressPaths := progressPaths + [0.0];
    }

    /** `startRecording`, always called just after a segment is added: drops
        the old timers, records the start time, resets the newest segment to
        zero, and schedules the tick timer and the timeout timer, the latter
        for the budget the earlier segments left. */
    method StartRecording(now: real)
      requires |progressPaths| > 0
      modifies this`tickTimer, this`timeoutTimer, this`timeoutInterval, this`status,
               this`startRecordingTime, this`progressPaths, this`events
      ensures status == Recording && startRecordingTime == now
      ensures progressPaths == old(progressPaths)[|old(progressPaths)| - 1 := 0.0]
      ensures tickTimer && timeoutTimer
      ensures timeoutInterval == timeout - Sum(progressPaths)
      ensures timeoutInterval == timeout - ElapsedBefore(old(progressPaths))
      ensures events == old(events) + [Started, Progress(Sum(progressPaths))]
    {
      tickTimer := false;
      timeoutTimer := false;
      status := Recording;
      events := events + [Started];
      startRecordingTime := now;
      UpdateProgress(now);
      tickTimer := true;
      var total := TotalRecordingSec();
      timeoutInterval := timeout - total;
      timeoutTimer := true;
    }

    /** `pauseRecording`: status `Paused`, the button enabled, both timers
        dropped. */
    method PauseRecording()
      modifies this`status, this`enabled, this`tickTimer, this`timeoutTimer
      ensures status == Paused && enabled && !tickTimer && !timeoutTimer
    {
      enabled := false;
      status := Paused;
      enabled := true;
      tickTimer := false;
      timeoutTimer := false;
    }

    /** `endRecording`: disables the button and queues the settle callback;
        the segments are kept. */
    method EndRecording()
      modifies this`enabled, this`pendingSettles
      ensures !enabled && pendingSettles == old(pendingSettles) + 1
    {
      enabled := false;
      pendingSettles := pendingSettles + 1;
    }

    /** The settle callback queued by `endRecording`, run 0.1 s later: status
        `Idle`, the button enabled, both timers dropped. The segments stay. */
    method SettleAfterEnd()
      requires pendingSettles > 0
      modifies this`status, this`enabled, this`tickTimer, this`timeoutTimer, this`pendingSettles
      ensures Valid()
      ensures status == Idle && enabled && !tickTimer && !timeoutTimer
      ensures pendingSettles == old(pendingSettles) - 1
    {
      pendingSettles := pendingSettles - 1;
      status := Idle;
      enabled := true;
      tickTimer := false;
      timeoutTimer := false;
    }

    /** Outside `Recording` neither timer handle is set, so neither `Tick`
        nor `TimeoutRecording` can fire. */
    lemma TimersOnlyWhileRecording()
      requires Valid() && status != Recording
      ensures !tickTimer && !timeoutTimer
    {
    }

    /** `cancelRecording`: forgets every segment and the start time. Status
        and timers are not touched. */
    method CancelRecording()
      modifies this`startRecordingTime, this`progressPaths
      ensures startRecordingTime == 0.0 && progressPaths == []
    {
      startRecordingTime := 0.0;
      progressPaths := [];
    }

    /** `backRecording`: removes the newest segment, tells the delegate the
        new total, and that the button is idle when no segment is left. The
        code removes the last element without checking, so there must be
        one. */
    method BackRecording()
      requires |progressPaths| > 0
      modifies this`progressPaths, this`events
      ensures progressPaths == old(progressPaths)[..|old(progressPaths)| - 1]
      ensures Sum(progressPaths) == Sum(old(progressPaths)) - old(progressPaths)[|old(progressPaths)| - 1]
      ensures events == old(events) + [Progress(Sum(progressPaths))]
                        + (if progressPaths == [] then [BecameIdle] else [])
    {
      SumRemoveLast(progressPaths);
      progressPaths := progressPaths[..|progressPaths| - 1];
      var progress := TotalRecordingSec();
      events := events + [Progress(progress)];
      if |progressPaths| <= 0 {
        events := events + [BecameIdle];
      }
    }
  }

  /** Press and hold for five seconds with a 30-second timeout, then
      release: one segment of five seconds, paused, its arc a sixth of the
      ring. */
  method HoldAndRelease(t0: real) returns (times: seq<real>, status: Status, fraction: real)
    ensures times == [5.0] && status == Paused
    ensures fraction == 5.0 / 30.0
  {
    var b := new RecordingButton();
    b.mode := Pressing;
    b.timeout := 30.0;
    b.DidTouchDown(t0);
    b.Tick(t0 + 5.0);
    b.DidTouchUp();
    times, status := b.progressPaths, b.status;
    fraction := StrokeEnd(times, b.timeout, times[0]);
  }

  /** The totals of the segments `[10, 5]`. */
  lemma TwoSegmentTotals()
    ensures Sum([10.0, 5.0]) == 15.0 && ElapsedBefore([10.0, 5.0]) == 10.0
  {
    assert [10.0, 5.0][..1] == [10.0];
    assert [10.0][..0] == [];
  }

  /** In `Pressed` mode, from `Idle` or `Paused`: tap at `start` and let the
      tick fire `length` seconds later. The new segment holds `length`, both
      timers are set, and the timeout interval is the budget the earlier
      segments left. */
  method OpenSegment(b: RecordingButton, start: real, length: real)
    requires b.mode == Pressed && b.status != Recording
    modifies b
    ensures b.mode == Pressed && b.status == Recording && b.timeout == old(b.timeout)
    ensures b.tickTimer && b.timeoutTimer && b.pendingSettles == old(b.pendingSettles)
    ensures b.timeoutInterval == b.timeout - Sum(old(b.progressPaths))
    ensures b.progressPaths == old(b.progressPaths) + [length]
    ensures b.events == old(b.events)
              + [Started, Progress(Sum(old(b.progressPaths))),
                 Progress(Sum(old(b.progressPaths)) + length)]
  {
    ghost var paths := b.progressPaths;
    SumAppend(paths, 0.0);
    SumAppend(paths, length);
    b.DidTouchDown(start);
    assert b.progressPaths == paths + [0.0] && b.startRecordingTime == start;
    b.Tick(start + length);
    assert b.progressPaths == paths + [length];
  }

  /** `OpenSegment`, then a tap `length` seconds after `start`: one segment
      of `length` is added and the button is paused again. */
  method RecordSegment(b: RecordingButton, start: real, length: real)
    requires b.mode == Pressed && b.status != Recording
    modifies b
    ensures b.mode == Pressed && b.status == Paused && b.timeout == old(b.timeout)
    ensures b.progressPaths == old(b.progressPaths) + [length]
    ensures b.events == old(b.events)
              + [Started, Progress(Sum(old(b.progressPaths))),
                 Progress(Sum(old(b.progressPaths)) + length), Ended]
  {
    OpenSegment(b, start, length);
    b.DidTouchDown(start + length);
  }

  /** Tap-to-toggle with a 60-second timeout: record ten seconds, pause,
      resume, record five more, pause. The total is fifteen seconds, the
      second arc starts a sixth of a turn past the base angle, and its stroke
      fraction is taken of the fifty seconds that were left. */
  method ToggleTwoSegments(t0: real, t1: real) returns (times: seq<real>, total: real, angle: real, fraction: real)
    ensures times == [10.0, 5.0] && total == 15.0
    ensures angle == BaseAngle + 2.0 * Pi * (10.0 / 60.0)
    ensures fraction == 5.0 / 50.0
  {
    var b := new RecordingButton();
    b.mode := Pressed;
    b.timeout := 60.0;
    RecordSegment(b, t0, 10.0);
    RecordSegment(b, t1, 5.0);
    times := b.progressPaths;
    assert times == [10.0, 5.0];
    TwoSegmentTotals();
    total := b.TotalRecordingSec();
    angle := CalculateStartAngle(times, b.timeout);
    fraction := StrokeEnd(times, b.timeout, times[1]);
    assert 50.0 * fraction == 5.0;
  }

  /** Start with a 10-second timeout and let the timeout timer fire: it was
      scheduled for ten seconds, the tick at that moment brings the total to
      the timeout, and after the settle callback the button is idle -- while
      still holding the recorded segment. */
  method RunToTimeout(t0: real) returns (interval: real, times: seq<real>, status: Status, ghost log: seq<Event>)
    ensures interval == 10.0
    ensures times == [10.0] && status == Idle
    ensures log == [Started, Progress(0.0), Progress(10.0), Ended]
  {
    var b := new RecordingButton();
    b.mode := Pressed;
    b.timeout := 10.0;
    OpenSegment(b, t0, 10.0);
    assert Sum([]) == 0.0 && Sum([10.0]) == 10.0;
    interval := b.timeoutInterval;
    b.TimeoutRecording();
    b.SettleAfterEnd();
    times, status, log := b.progressPaths, b.status, b.events;
  }

  /** Record three seconds and then four, and step back twice: the totals
      reported are three and then zero, and the delegate hears that the
      button is idle only after the second step. */
  method BackTwice(t0: real, t1: real) returns (first: real, second: real, times: seq<real>, ghost tail: seq<Event>)
    ensures first == 3.0 && second == 0.0 && times == []
    ensures tail == [Progress(3.0), Progress(0.0), BecameIdle]
  {
    var b := new RecordingButton();
    b.mode := Pressed;
    b.timeout := 60.0;
    RecordSegment(b, t0, 3.0);
    RecordSegment(b, t1, 4.0);
    assert b.progressPaths == [3.0, 4.0];
    ghost var before := b.events;
    b.BackRecording();
    assert b.progressPaths == [3.0];
    assert [3.0][..0] == [] && Sum([3.0]) == 3.0;
    assert b.events == before + [Progress(3.0)];
    first := b.TotalRecordingSec();
    b.BackRecording();
    assert b.progressPaths == [];
    assert b.events == before + [Progress(3.0)] + [Progress(0.0), BecameIdle];
    second := b.TotalRecordingSec();
    times := b.progressPaths;
    tail := b.events[|before|..];
  }

  /** Cancelling while recording empties the segment list but leaves the
      button recording with both timers set; the next tick then changes
      nothing and reports nothing. */
  method CancelWhileRecording(t0: real, t1: real)
    returns (times: seq<real>, status: Status, timersSet: bool, ghost tickEvents: seq<Event>)
    ensures times == [] && status == Recording && timersSet
    ensures tickEvents == []
  {
    var b := new RecordingButton();
    b.timeout := 30.0;
    b.DidTouchDown(t0);
    b.Tick(t1);
    b.CancelRecording();
    ghost var before := b.events;
    b.Tick(t1 + 0.1);
    times, status, timersSet := b.progressPaths, b.status, b.tickTimer && b.timeoutTimer;
    tickEvents := b.events[|before|..];
  }
}
